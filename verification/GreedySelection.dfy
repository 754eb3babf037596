/** `_non_overlapping` of scripts/audit_xauusd_m1_edge_costs.py: one pass that keeps an event when it is
    entered no earlier than the exit of the last event kept. */
module GreedySelection {

  datatype Item = Item(entry: int, end: int)

  /** Indices kept among the first n items, in row order. */
  ghost function Kept(items: seq<Item>, n: nat): (s: seq<nat>)
    requires n <= |items|
    ensures forall k :: 0 <= k < |s| ==> s[k] < n
  {
    if n == 0 then []
    else
      var rest := Kept(items, n - 1);
      if rest == [] || items[n - 1].entry >= items[rest[|rest| - 1]].end then rest + [n - 1] else rest
  }

  ghost function Take(items: seq<Item>, indices: seq<nat>): seq<Item>
    requires forall k :: 0 <= k < |indices| ==> indices[k] < |items|
  {
    seq(|indices|, k requires 0 <= k < |indices| => items[indices[k]])
  }

  datatype LastExit = NoneYet | At(time: int)

  method NonOverlapping(items: seq<Item>) returns (selected: seq<Item>)
    ensures selected == Take(items, Kept(items, |items|))
  {
    hide Take;
    hide Kept;
    TakeNothing(items);
    selected := [];
    var lastExit := NoneYet;
    for i := 0 to |items|
      invariant selected == Take(items, Kept(items, i))
      invariant lastExit == if selected == [] then NoneYet else At(selected[|selected| - 1].end)
    {
      TakeStep(items, i);
      if lastExit.NoneYet? || items[i].entry >= lastExit.time {
        selected := selected + [items[i]];
        lastExit := At(items[i].end);
      }
    }
  }

  /** Whether row n is kept, given what was kept before it. */
  ghost predicate Admits(items: seq<Item>, rest: seq<nat>, n: nat)
    requires n < |items| && forall k :: 0 <= k < |rest| ==> rest[k] < |items|
  {
    rest == [] || items[n].entry >= items[rest[|rest| - 1]].end
  }

  lemma TakeNothing(items: seq<Item>)
    ensures Take(items, Kept(items, 0)) == []
  {
  }

  /** What row n does to the events taken so far. */
  lemma TakeStep(items: seq<Item>, n: nat)
    requires n < |items|
    ensures var t := Take(items, Kept(items, n));
            Take(items, Kept(items, n + 1)) ==
            if t == [] || items[n].entry >= t[|t| - 1].end then t + [items[n]] else t
  {
    hide Kept;
    KeptStep(items, n);
  }

  lemma NothingKept(items: seq<Item>)
    ensures Kept(items, 0) == [] && Chain(items, Kept(items, 0))
  {
  }

  lemma KeptStep(items: seq<Item>, n: nat)
    requires n < |items|
    ensures Kept(items, n + 1) == if Admits(items, Kept(items, n), n) then Kept(items, n) + [n] else Kept(items, n)
  {
  }

  // ---------------------------------------------------------------- what is kept and what is skipped

  /** Strictly increasing rows, each entered no earlier than the exit of the one before it. */
  ghost predicate Chain(items: seq<Item>, t: seq<nat>) {
    && (forall k :: 0 <= k < |t| ==> t[k] < |items|)
    && (forall j, k :: 0 <= j < k < |t| && k == j + 1 ==> t[j] < t[k] && items[t[k]].entry >= items[t[j]].end)
  }

  lemma ChainSnoc(items: seq<Item>, t: seq<nat>, n: nat)
    requires Chain(items, t) && n < |items| && Admits(items, t, n) && (t != [] ==> t[|t| - 1] < n)
    ensures Chain(items, t + [n])
  {
  }

  lemma {:induction false} KeptIsChain(items: seq<Item>, n: nat)
    requires n <= |items|
    ensures Chain(items, Kept(items, n))
  {
    hide Kept;
    hide Chain;
    if n == 0 {
      NothingKept(items);
    } else {
      KeptIsChain(items, n - 1);
      KeptStep(items, n - 1);
      var rest := Kept(items, n - 1);
      if Admits(items, rest, n - 1) {
        ChainSnoc(items, rest, n - 1);
      }
    }
  }

  lemma {:induction false} KeptGrows(items: seq<Item>, m: nat, n: nat)
    requires m <= n <= |items|
    ensures Kept(items, m) <= Kept(items, n)
    ensures forall k :: |Kept(items, m)| <= k < |Kept(items, n)| ==> Kept(items, n)[k] >= m
    decreases n
  {
    hide Kept;
    if m < n {
      KeptGrows(items, m, n - 1);
      KeptStep(items, n - 1);
    }
  }

  /** A skipped event is entered before the exit of the last event kept ahead of it; a kept one is not. */
  lemma SkippedOnlyOnConflict(items: seq<Item>, i: nat)
    requires i < |items|
    ensures var ahead := Kept(items, i);
            && ahead <= Kept(items, |items|)
            && (i !in Kept(items, |items|) <==> ahead != [] && items[i].entry < items[ahead[|ahead| - 1]].end)
  {
    var ahead, next, all := Kept(items, i), Kept(items, i + 1), Kept(items, |items|);
    hide Kept;
    KeptStep(items, i);
    KeptGrows(items, i, i + 1);
    KeptGrows(items, i + 1, |items|);
    if i in next {
      var k :| 0 <= k < |next| && next[k] == i;
      assert all[k] == i;
    } else {
      forall k | 0 <= k < |all| ensures all[k] != i {
        assert k < |next| ==> all[k] == next[k] && next[k] in next;
      }
    }
  }

  ghost predicate Forward(items: seq<Item>) {
    forall i :: 0 <= i < |items| ==> items[i].entry <= items[i].end
  }

  /** When no event ends before it is entered, all kept events are pairwise free of overlap. */
  lemma {:induction false} KeptPairwise(items: seq<Item>, t: seq<nat>, j: nat, k: nat)
    requires Forward(items) && Chain(items, t) && j < k < |t|
    ensures items[t[k]].entry >= items[t[j]].end
    decreases k
  {
    assert t[k - 1] < t[k];
    if j < k - 1 {
      KeptPairwise(items, t, j, k - 1);
    }
  }

  ghost predicate Chronological(times: seq<int>) {
    forall i, j :: 0 <= i < j < |times| ==> times[i] < times[j]
  }

  /** Events as they are filled from the bars: entered on the bar after the signal bar, ended on a bar later
      than the signal bar. */
  ghost predicate Filled(times: seq<int>, signals: seq<nat>, items: seq<Item>) {
    && |signals| == |items|
    && forall i :: 0 <= i < |items| ==>
         && signals[i] + 1 < |times| && items[i].entry == times[signals[i] + 1]
         && items[i].end in times && times[signals[i]] < items[i].end
  }

  lemma FilledForward(times: seq<int>, signals: seq<nat>, items: seq<Item>)
    requires Chronological(times) && Filled(times, signals, items)
    ensures Forward(items)
  {
    forall i | 0 <= i < |items| ensures items[i].entry <= items[i].end {
      var e :| 0 <= e < |times| && times[e] == items[i].end;
      NextBar(times, signals[i], e);
    }
  }

  lemma NextBar(times: seq<int>, k: nat, e: nat)
    requires Chronological(times) && k + 1 < |times| && e < |times| && times[k] < times[e]
    ensures times[k + 1] <= times[e]
  {
  }

  /** On events filled from a chronological file, every two selected events are free of overlap. */
  lemma SelectionNonOverlapping(times: seq<int>, signals: seq<nat>, items: seq<Item>, j: nat, k: nat)
    requires Chronological(times) && Filled(times, signals, items)
    requires j < k < |Kept(items, |items|)|
    ensures items[Kept(items, |items|)[k]].entry >= items[Kept(items, |items|)[j]].end
  {
    hide Kept;
    hide Chain;
    hide Forward;
    FilledForward(times, signals, items);
    KeptIsChain(items, |items|);
    KeptPairwise(items, Kept(items, |items|), j, k);
  }

  /** Row n joins or is left out, with the kept rows written out. */
  lemma KeptNext(items: seq<Item>, n: nat, kept: seq<nat>)
    requires n < |items| && Kept(items, n) == kept
    requires forall k :: 0 <= k < |kept| ==> kept[k] < |items|
    ensures Admits(items, kept, n) ==> Kept(items, n + 1) == kept + [n]
    ensures !Admits(items, kept, n) ==> Kept(items, n + 1) == kept
  {
  }

  /** Rows that each follow the one before are all kept. */
  lemma {:induction false} KeptAll(items: seq<Item>, n: nat)
    requires n <= |items| && forall j, k :: 0 <= j < k < |items| && k == j + 1 ==> items[k].entry >= items[j].end
    ensures |Kept(items, n)| == n && forall k :: 0 <= k < n ==> Kept(items, n)[k] == k
  {
    hide Chain;
    hide Kept;
    if n == 0 {
      NothingKept(items);
    } else {
      KeptAll(items, n - 1);
      KeptStep(items, n - 1);
    }
  }

  /** Without that, neighbours are still compatible but distant kept events may overlap. */
  lemma DistantOverlap(items: seq<Item>)
    requires items == [Item(0, 100), Item(100, 50), Item(60, 70)]
    ensures Kept(items, 3) == [0, 1, 2] && items[2].entry < items[0].end
  {
    hide Kept;
    KeptAll(items, 3);
  }

  // ---------------------------------------------------------------- maximum cardinality

  lemma ChainInit(items: seq<Item>, t: seq<nat>)
    requires Chain(items, t) && t != []
    ensures Chain(items, t[..|t| - 1])
    ensures |t| >= 2 ==> t[|t| - 2] < t[|t| - 1] && items[t[|t| - 1]].entry >= items[t[|t| - 2]].end
  {
  }

  ghost function Last(t: seq<nat>): nat
    requires t != []
  {
    t[|t| - 1]
  }

  /** No chain of compatible rows is longer than the selection. */
  ghost predicate Maximal(items: seq<Item>) {
    forall t :: Chain(items, t) ==> |t| <= |Kept(items, |items|)|
  }

  /** An end from which a chain may still be continued. */
  ghost predicate Ahead(items: seq<Item>, live: set<nat>, n: nat, t: seq<nat>)
    requires n <= |items| && forall k :: 0 <= k < |t| ==> t[k] < |items|
  {
    && |t| <= |Kept(items, n)|
    && (t != [] && Last(t) in live && |t| == |Kept(items, n)| ==> items[Last(Kept(items, n))].end <= items[Last(t)].end)
  }

  /** What makes the greedy choice safe: a row from which chains go on ends no earlier than the rows before it,
      and every row that a chain goes on from is among those. */
  ghost predicate Safe(items: seq<Item>, live: set<nat>) {
    && (forall i, j :: 0 <= i < j < |items| && j in live ==> items[i].end <= items[j].end)
    && (forall i, j :: 0 <= i < j < |items| && items[i].end <= items[j].entry ==> i in live)
  }

  lemma SafeEnds(items: seq<Item>, live: set<nat>, i: nat, j: nat)
    requires Safe(items, live) && i <= j < |items| && j in live
    ensures items[i].end <= items[j].end
  {
  }

  lemma SafeLive(items: seq<Item>, live: set<nat>, i: nat, j: nat)
    requires Safe(items, live) && i < j < |items| && items[i].end <= items[j].entry
    ensures i in live
  {
  }

  /** The greedy choice stays ahead of every chain in the same rows. */
  lemma {:induction false} StaysAhead(items: seq<Item>, live: set<nat>, n: nat, t: seq<nat>)
    requires Safe(items, live) && n <= |items| && Chain(items, t)
    requires forall k :: 0 <= k < |t| ==> t[k] < |items|
    requires t != [] ==> Last(t) < n
    ensures Ahead(items, live, n, t)
    decreases n
  {
    hide Safe;
    hide Chain;
    hide Kept;
    if t != [] {
      KeptStep(items, n - 1);
      var init := t[..|t| - 1];
      var rest := Kept(items, n - 1);
      ChainInit(items, t);
      if Last(t) < n - 1 {
        StaysAhead(items, live, n - 1, t);
      } else {
        if init != [] {
          SafeLive(items, live, Last(init), n - 1);
        }
        StaysAhead(items, live, n - 1, init);
        if n - 1 in live && rest != [] {
          SafeEnds(items, live, Last(rest), n - 1);
        }
      }
    }
  }

  lemma SafeIsMaximal(items: seq<Item>, live: set<nat>)
    requires Safe(items, live)
    ensures Maximal(items)
  {
    forall t | Chain(items, t) ensures |t| <= |Kept(items, |items|)| {
      assert forall k :: 0 <= k < |t| ==> t[k] < |items|;
      hide Safe;
      hide Chain;
      hide Kept;
      StaysAhead(items, live, |items|, t);
    }
  }

  // ---------------------------------------------------------------- the exact condition, for arbitrary entry times

  function Zip(entries: seq<int>, ends: seq<int>): (items: seq<Item>)
    requires |entries| == |ends|
    ensures |items| == |ends| && forall i :: 0 <= i < |ends| ==> items[i] == Item(entries[i], ends[i])
  {
    seq(|ends|, i requires 0 <= i < |ends| => Item(entries[i], ends[i]))
  }

  /** Ends never fall, the last row aside. */
  ghost predicate RisesBeforeLast(ends: seq<int>) {
    forall i, j :: 0 <= i < j < |ends| - 1 ==> ends[i] <= ends[j]
  }

  ghost function RowsBelow(n: int): (s: set<nat>)
    ensures forall i: nat :: i in s <==> i < n
    decreases if n < 0 then 0 else n
  {
    if n <= 0 then {} else RowsBelow(n - 1) + {n - 1}
  }

  /** When ends never fall before the last row, the selection is maximal whatever the entry times. */
  lemma GreedyIsMaximum(items: seq<Item>)
    requires forall i, j :: 0 <= i < j < |items| - 1 ==> items[i].end <= items[j].end
    ensures Maximal(items)
  {
    SafeIsMaximal(items, RowsBelow(|items| - 1));
  }

  /** Two kept rows at most: the first, and one later row i that the others are entered too early for. */
  lemma {:induction false} KeptPair(items: seq<Item>, i: nat, n: nat)
    requires 0 < n <= |items| && i < |items|
    requires forall k :: 0 < k < |items| && k < i ==> items[k].entry < items[0].end
    requires 0 < i ==> items[i].entry >= items[0].end
    requires forall k :: i < k < |items| ==> items[k].entry < items[i].end
    ensures Kept(items, n) == if i == 0 || n <= i then [0] else [0, i]
  {
    hide Chain;
    hide Kept;
    if n == 1 {
      NothingKept(items);
      KeptNext(items, 0, []);
      assert [] + [0] == [0];
    } else {
      KeptPair(items, i, n - 1);
      var kept := if i == 0 || n - 1 <= i then [0] else [0, i];
      KeptNext(items, n - 1, kept);
      if n - 1 == i {
        assert [0] + [i] == [0, i];
      }
    }
  }

  /** Entry times under which row i is kept, row j would have been better, and the last row shows it. */
  function Trap(ends: seq<int>, low: int, i: nat, j: nat): (entries: seq<int>)
    requires j < |ends|
    ensures |entries| == |ends|
    ensures forall k :: 0 <= k < |ends| ==> entries[k] == TrapEntry(ends, low, i, j, k)
  {
    seq(|ends|, k requires 0 <= k < |ends| => TrapEntry(ends, low, i, j, k))
  }

  function TrapEntry(ends: seq<int>, low: int, i: nat, j: nat, k: nat): int
    requires j < |ends| && k < |ends|
  {
    if k == |ends| - 1 then ends[j] else if 0 < i <= k then ends[0] else low
  }

  lemma BeatenBy(items: seq<Item>, better: seq<nat>)
    requires Chain(items, better) && |better| > |Kept(items, |items|)|
    ensures !Maximal(items)
  {
  }

  /** Two rows i < j before the last row with end i later than end j: some entry times beat the selection. */
  lemma TrapBeats(ends: seq<int>, low: int, i: nat, j: nat)
    requires i < j < |ends| - 1 && ends[j] < ends[i] && low < ends[0] && low < ends[i]
    requires 0 < i ==> ends[0] <= ends[j]
    ensures !Maximal(Zip(Trap(ends, low, i, j), ends))
  {
    hide Kept;
    hide Maximal;
    var items := Zip(Trap(ends, low, i, j), ends);
    KeptPair(items, i, |items|);
    var better: seq<nat> := if i == 0 then [j, |ends| - 1] else [0, j, |ends| - 1];
    assert Chain(items, better);
    BeatenBy(items, better);
  }

  lemma FindFall(ends: seq<int>) returns (i: nat, j: nat)
    requires !RisesBeforeLast(ends)
    ensures i < j < |ends| - 1 && ends[j] < ends[i]
  {
    i, j :| 0 <= i < j < |ends| - 1 && ends[i] > ends[j];
  }

  /** A fall before the last row always leaves room for a trap. */
  lemma FallGivesTrap(ends: seq<int>) returns (entries: seq<int>)
    requires !RisesBeforeLast(ends)
    ensures |entries| == |ends| && !Maximal(Zip(entries, ends))
  {
    hide *;
    var i, j := FindFall(ends);
    if ends[j] < ends[0] {
      i := 0;
    }
    var low := (if ends[0] < ends[i] then ends[0] else ends[i]) - 1;
    TrapBeats(ends, low, i, j);
    entries := Trap(ends, low, i, j);
  }

  /** For given ends the selection is maximal under every choice of entry times if and only if the ends never
      fall before the last row. */
  lemma MaximalIff(ends: seq<int>)
    ensures (forall entries: seq<int> :: |entries| == |ends| ==> Maximal(Zip(entries, ends))) <==> RisesBeforeLast(ends)
  {
    hide Maximal;
    if RisesBeforeLast(ends) {
      forall entries: seq<int> | |entries| == |ends| ensures Maximal(Zip(entries, ends)) {
        GreedyIsMaximum(Zip(entries, ends));
      }
    } else {
      var entries := FallGivesTrap(ends);
    }
  }

  /** The smallest case: one long event crowds out two short ones. */
  lemma GreedyCanBeBeaten(items: seq<Item>)
    requires items == [Item(0, 100), Item(1, 2), Item(3, 4)]
    ensures Kept(items, 3) == [0] && Chain(items, [1, 2]) && !Maximal(items)
  {
    KeptPair(items, 0, 3);
    assert Chain(items, [1, 2]);
    hide Kept;
  }

  // ---------------------------------------------------------------- the exact condition, for rows in time order

  /** Rows as the audit orders them: entries never fall, and no event ends before it is entered. */
  ghost predicate Timely(items: seq<Item>) {
    && (forall i, j :: 0 <= i < j < |items| ==> items[i].entry <= items[j].entry)
    && Forward(items)
  }

  /** Events filled from a chronological file, sorted by signal time, are such rows. */
  lemma FilledTimely(times: seq<int>, signals: seq<nat>, items: seq<Item>)
    requires Chronological(times) && Filled(times, signals, items)
    requires forall i, j :: 0 <= i < j < |signals| ==> signals[i] <= signals[j]
    ensures Timely(items)
  {
    FilledForward(times, signals, items);
    forall i, j | 0 <= i < j < |items| ensures items[i].entry <= items[j].entry {
      assert signals[i] <= signals[j];
    }
  }

  /** A row before the last that ends before some earlier row also ends after the last row. */
  ghost predicate FallsOnlyLate(ends: seq<int>) {
    forall i, j :: 0 <= i < j < |ends| - 1 && ends[j] < ends[i] ==> ends[|ends| - 1] < ends[j]
  }

  lemma TimelyIsMaximal(items: seq<Item>, ends: seq<int>)
    requires Timely(items) && |ends| == |items| && forall i :: 0 <= i < |items| ==> items[i].end == ends[i]
    requires FallsOnlyLate(ends)
    ensures Maximal(items)
  {
    if |items| == 0 {
      SafeIsMaximal(items, {});
    } else {
      var n := |items| - 1;
      var live := set i | 0 <= i < n && ends[i] <= ends[n];
      forall i, j | 0 <= i < j < |items| && items[i].end <= items[j].entry ensures i in live {
        assert items[j].entry <= items[n].entry <= items[n].end;
      }
      SafeIsMaximal(items, live);
    }
  }

  lemma LowerBound(s: seq<int>) returns (low: int)
    ensures forall i :: 0 <= i < |s| ==> low < s[i]
  {
    if s == [] {
      low := 0;
    } else {
      low := LowerBound(s[..|s| - 1]);
      low := if low < s[|s| - 1] then low else s[|s| - 1] - 1;
    }
  }

  lemma TrapTimely(ends: seq<int>, low: int, i: nat, j: nat)
    requires j < |ends| - 1 && ends[j] <= ends[|ends| - 1] && forall k :: 0 <= k < |ends| ==> low < ends[k]
    requires 0 < i ==> ends[0] <= ends[j] && forall k :: i <= k < |ends| ==> ends[0] <= ends[k]
    ensures Timely(Zip(Trap(ends, low, i, j), ends))
  {
  }

  /** The trap can be set with rows in time order. */
  lemma TimelyTrap(ends: seq<int>) returns (entries: seq<int>)
    requires !FallsOnlyLate(ends)
    ensures |entries| == |ends| && Timely(Zip(entries, ends)) && !Maximal(Zip(entries, ends))
  {
    var i, j :| 0 <= i < j < |ends| - 1 && ends[j] < ends[i] && ends[j] <= ends[|ends| - 1];
    hide *;
    var low := LowerBound(ends);
    if m :| 0 < m < |ends| - 1 && ends[m] < ends[0] && ends[m] <= ends[|ends| - 1] {
      i, j := 0, m;
    }
    TrapBeats(ends, low, i, j);
    TrapTimely(ends, low, i, j);
    entries := Trap(ends, low, i, j);
  }

  /** For rows in time order the selection is maximal under every choice of entry times if and only if no row but
      the last ends before an earlier row while ending no later than the last. */
  lemma TimelyMaximalIff(ends: seq<int>)
    ensures (forall entries: seq<int> :: |entries| == |ends| && Timely(Zip(entries, ends)) ==>
              Maximal(Zip(entries, ends)))
            <==> FallsOnlyLate(ends)
  {
    hide Maximal;
    hide Timely;
    if FallsOnlyLate(ends) {
      forall entries: seq<int> | |entries| == |ends| && Timely(Zip(entries, ends)) ensures Maximal(Zip(entries, ends)) {
        TimelyIsMaximal(Zip(entries, ends), ends);
      }
    } else {
      var entries := TimelyTrap(ends);
    }
  }

  // ---------------------------------------------------------------- sets of rows

  /** By the test of the pass, one of the two can follow the other. */
  ghost predicate Apart(a: Item, b: Item) {
    a.end <= b.entry || b.end <= a.entry
  }

  ghost predicate FreeSet(items: seq<Item>, rows: set<nat>) {
    && (forall i :: i in rows ==> i < |items|)
    && (forall i, j :: i in rows && j in rows && i < j ==> Apart(items[i], items[j]))
  }

  /** No set of rows free of overlap, in whatever order it is found, is larger than the selection. */
  ghost predicate LargestFree(items: seq<Item>) {
    forall rows :: FreeSet(items, rows) ==> |rows| <= |Kept(items, |items|)|
  }

  ghost predicate NeverFalls(ends: seq<int>) {
    forall i, j :: 0 <= i < j < |ends| ==> ends[i] <= ends[j]
  }

  ghost predicate EndsAre(items: seq<Item>, ends: seq<int>) {
    |items| == |ends| && forall i :: 0 <= i < |items| ==> items[i].end == ends[i]
  }

  /** With ends that never fall, two rows apart are apart in row order, events of no length included. */
  lemma InTimeOrder(items: seq<Item>, ends: seq<int>, rows: set<nat>, i: nat, j: nat)
    requires Timely(items) && EndsAre(items, ends) && NeverFalls(ends)
    requires FreeSet(items, rows) && i in rows && j in rows && i < j
    ensures items[i].end <= items[j].entry
  {
    assert Apart(items[i], items[j]);
  }

  lemma ChainRows(items: seq<Item>, t: seq<nat>)
    requires Chain(items, t)
    ensures forall k :: 0 <= k < |t| ==> t[k] < |items|
  {
  }

  lemma {:induction false} FreeSetChain(items: seq<Item>, ends: seq<int>, rows: set<nat>, n: nat) returns (t: seq<nat>)
    requires Timely(items) && EndsAre(items, ends) && NeverFalls(ends)
    requires FreeSet(items, rows) && n <= |items| && forall i :: i in rows ==> i < n
    ensures Chain(items, t) && |t| == |rows| && forall i :: i in rows <==> i in t
  {
    if n == 0 {
      t := [];
      assert rows == {};
    } else if n - 1 in rows {
      var init := FreeSetChain(items, ends, rows - {n - 1}, n - 1);
      if init != [] {
        assert Last(init) in init;
        InTimeOrder(items, ends, rows, Last(init), n - 1);
      }
      hide Chain;
      hide Timely;
      hide FreeSet;
      ChainRows(items, init);
      ChainSnoc(items, init, n - 1);
      t := init + [n - 1];
    } else {
      t := FreeSetChain(items, ends, rows, n - 1);
    }
  }

  /** Rows in time order whose ends never fall: the selection is a largest set of rows free of overlap. */
  lemma NoLargerFreeSet(items: seq<Item>, ends: seq<int>)
    requires Timely(items) && EndsAre(items, ends) && NeverFalls(ends)
    ensures LargestFree(items)
  {
    GreedyIsMaximum(items);
    forall rows | FreeSet(items, rows) ensures |rows| <= |Kept(items, |items|)| {
      var t := FreeSetChain(items, ends, rows, |items|);
      hide Kept;
      hide Chain;
    }
  }

  lemma {:induction false} ChainAscends(items: seq<Item>, t: seq<nat>, j: nat, k: nat)
    requires Chain(items, t) && j < k < |t|
    ensures t[j] < t[k]
    decreases k
  {
    assert t[k - 1] < t[k];
    if j < k - 1 {
      ChainAscends(items, t, j, k - 1);
    }
  }

  lemma ChainApart(items: seq<Item>, t: seq<nat>, i: nat, j: nat)
    requires Forward(items) && Chain(items, t) && i in t && j in t && i < j
    ensures j < |items| && Apart(items[i], items[j])
  {
    var x :| 0 <= x < |t| && t[x] == i;
    var y :| 0 <= y < |t| && t[y] == j;
    if y < x {
      ChainAscends(items, t, y, x);
      assert false;
    }
    KeptPairwise(items, t, x, y);
  }

  /** The selection itself is such a set: its rows are distinct and pairwise apart. */
  lemma SelectionIsFree(items: seq<Item>) returns (rows: set<nat>)
    requires Forward(items)
    ensures FreeSet(items, rows) && |rows| == |Kept(items, |items|)|
    ensures forall i :: i in rows <==> i in Kept(items, |items|)
  {
    KeptIsChain(items, |items|);
    var t := Kept(items, |items|);
    hide Kept;
    ChainRows(items, t);
    rows := set i | i in t;
    forall i, j | i in rows && j in rows && i < j ensures Apart(items[i], items[j]) {
      ChainApart(items, t, i, j);
    }
    forall x, y | 0 <= x < y < |t| ensures t[x] != t[y] {
      ChainAscends(items, t, x, y);
    }
    hide Chain;
    hide Apart;
    DistinctSize(t, rows);
  }

  lemma {:induction false} DistinctSize(t: seq<nat>, rows: set<nat>)
    requires (forall x, y :: 0 <= x < y < |t| ==> t[x] != t[y]) && forall i :: i in rows <==> i in t
    ensures |rows| == |t|
  {
    if t == [] {
      assert rows == {};
    } else {
      var n := |t| - 1;
      assert t[n] in rows;
      forall i ensures i in rows - {t[n]} <==> i in t[..n] {
        if i in rows && i != t[n] {
          var x :| 0 <= x < |t| && t[x] == i;
          assert t[..n][x] == i;
        }
      }
      DistinctSize(t[..n], rows - {t[n]});
    }
  }

  // ---------------------------------------------------------------- the exact condition, for sets of rows

  ghost predicate Fallen(ends: seq<int>, m: nat)
    requires m < |ends|
  {
    exists i :: 0 <= i < m && ends[m] < ends[i]
  }

  lemma {:induction false} LowestFallen(ends: seq<int>, n: nat) returns (m: nat)
    requires n <= |ends| && exists k :: 0 <= k < n && Fallen(ends, k)
    ensures m < n && Fallen(ends, m) && forall k :: 0 <= k < n && Fallen(ends, k) ==> ends[m] <= ends[k]
  {
    m := n - 1;
    if exists k :: 0 <= k < n - 1 && Fallen(ends, k) {
      var below := LowestFallen(ends, n - 1);
      if !Fallen(ends, n - 1) || ends[below] <= ends[n - 1] {
        m := below;
      }
    }
  }

  /** A fall: the lowest row m that ends before an earlier one, and the first row i that ends after it. */
  lemma LeastFall(ends: seq<int>) returns (i: nat, m: nat)
    requires !NeverFalls(ends)
    ensures i < m < |ends| && ends[m] < ends[i]
    ensures forall k :: 0 <= k < i ==> ends[k] <= ends[m]
    ensures forall k :: i <= k < |ends| ==> ends[m] <= ends[k]
  {
    var x, y :| 0 <= x < y < |ends| && ends[y] < ends[x];
    assert Fallen(ends, y);
    m := LowestFallen(ends, |ends|);
    i := 0;
    while ends[i] <= ends[m]
      invariant i < m && forall k :: 0 <= k < i ==> ends[k] <= ends[m]
      decreases m - i
    {
      i := i + 1;
    }
    forall k | i <= k < |ends| ensures ends[m] <= ends[k] {
      if ends[k] < ends[m] {
        assert Fallen(ends, k);
      }
    }
  }

  /** Entry times under which row i is kept and row m, entered and ended at the same moment, is not. */
  function Squeeze(ends: seq<int>, low: int, i: nat, m: nat): (entries: seq<int>)
    requires m < |ends|
    ensures |entries| == |ends| && forall k :: 0 <= k < |ends| ==> entries[k] == if k < i then low else ends[m]
  {
    seq(|ends|, k requires 0 <= k < |ends| => if k < i then low else ends[m])
  }

  ghost predicate Squeezable(ends: seq<int>, low: int, i: nat, m: nat) {
    && i < m < |ends| && ends[m] < ends[i] && (forall k :: 0 <= k < |ends| ==> low < ends[k])
    && (forall k :: 0 <= k < i ==> ends[k] <= ends[m]) && (forall k :: i <= k < |ends| ==> ends[m] <= ends[k])
  }

  lemma SqueezeTimely(ends: seq<int>, low: int, i: nat, m: nat)
    requires Squeezable(ends, low, i, m)
    ensures Timely(Zip(Squeeze(ends, low, i, m), ends))
  {
  }

  lemma SqueezeKeeps(ends: seq<int>, low: int, i: nat, m: nat)
    requires Squeezable(ends, low, i, m)
    ensures Kept(Zip(Squeeze(ends, low, i, m), ends), |ends|) == if i == 0 then [0] else [0, i]
  {
    hide Kept;
    var items := Zip(Squeeze(ends, low, i, m), ends);
    KeptPair(items, i, |items|);
  }

  lemma SqueezeFree(ends: seq<int>, low: int, i: nat, m: nat)
    requires Squeezable(ends, low, i, m)
    ensures FreeSet(Zip(Squeeze(ends, low, i, m), ends), {0, i, m})
    ensures |{0, i, m}| == if i == 0 then 2 else 3
  {
    if i == 0 {
      assert {0, i, m} == {0, m};
    }
  }

  lemma SqueezeBeats(ends: seq<int>, low: int, i: nat, m: nat)
    requires Squeezable(ends, low, i, m)
    ensures Timely(Zip(Squeeze(ends, low, i, m), ends)) && !LargestFree(Zip(Squeeze(ends, low, i, m), ends))
  {
    hide Kept;
    hide FreeSet;
    hide Timely;
    hide Squeezable;
    SqueezeTimely(ends, low, i, m);
    SqueezeKeeps(ends, low, i, m);
    SqueezeFree(ends, low, i, m);
  }

  /** For given ends, no set of rows free of overlap is larger than the selection, under every choice of entries in
      time order, if and only if the ends never fall. */
  lemma LargestFreeIff(ends: seq<int>)
    ensures (forall entries: seq<int> :: |entries| == |ends| && Timely(Zip(entries, ends)) ==>
              LargestFree(Zip(entries, ends)))
            <==> NeverFalls(ends)
  {
    hide LargestFree;
    hide Timely;
    if NeverFalls(ends) {
      forall entries: seq<int> | |entries| == |ends| && Timely(Zip(entries, ends))
        ensures LargestFree(Zip(entries, ends))
      {
        NoLargerFreeSet(Zip(entries, ends), ends);
      }
    } else {
      var low := LowerBound(ends);
      var i, m := LeastFall(ends);
      SqueezeBeats(ends, low, i, m);
      assert |Squeeze(ends, low, i, m)| == |ends|;
    }
  }

  /** The smallest case: no chain is longer than the selection, but the pair taken in the other order is free. */
  lemma LastEndFalls(items: seq<Item>)
    requires items == [Item(5, 10), Item(5, 5)]
    ensures Timely(items) && Maximal(items) && Kept(items, 2) == [0] && FreeSet(items, {0, 1})
  {
    GreedyIsMaximum(items);
    KeptPair(items, 0, 2);
  }
}
