/** The rules a completed bar follows, written out on prices, counts and earlier bars: when lockdown holds, where
    every stop lies, and which proposals are made. */
module BacktestRules {
  import opened OrderedDict
  import opened BacktestModel
  import opened BacktestBooks
  import opened BacktestProtocol
  import opened BacktestTheorems
  import opened BacktestSignals
  import opened BacktestFills
  import opened BacktestPrices

  // ---------------------------------------------------------------- lockdown

  /** The changes after index `from` that rise, by the index of their later value. */
  ghost function Ups(b: seq<real>, from: nat): (s: set<nat>)
    ensures forall i: nat :: i in s <==> from < i < |b| && b[i - 1] < b[i]
  {
    set i: nat {:trigger b[i]} | from < i < |b| && b[i - 1] < b[i]
  }

  ghost function Downs(b: seq<real>, from: nat): (s: set<nat>)
    ensures forall i: nat :: i in s <==> from < i < |b| && b[i - 1] > b[i]
  {
    set i: nat {:trigger b[i]} | from < i < |b| && b[i - 1] > b[i]
  }

  lemma OneChange(b: seq<real>, from: nat)
    requires from + 1 < |b|
    ensures var n, shorter := |b| - 1, b[..|b| - 1];
            && (b[n] > b[n - 1] ==> Ups(b, from) == Ups(shorter, from) + {n})
            && (b[n] <= b[n - 1] ==> Ups(b, from) == Ups(shorter, from))
            && (b[n] < b[n - 1] ==> Downs(b, from) == Downs(shorter, from) + {n})
            && (b[n] >= b[n - 1] ==> Downs(b, from) == Downs(shorter, from))
            && n !in Ups(shorter, from) && n !in Downs(shorter, from)
  {
  }

  lemma NoChange(b: seq<real>, from: nat)
    requires |b| <= from + 1
    ensures Ups(b, from) == {} && Downs(b, from) == {}
  {
  }

  lemma {:induction false} ChangesCounted(b: seq<real>, from: nat)
    requires from < |b|
    ensures Rises(b[from..]) == |Ups(b, from)| && Falls(b[from..]) == |Downs(b, from)|
  {
    hide Ups;
    hide Downs;
    if |b| <= from + 1 {
      NoChange(b, from);
    } else {
      var shorter, w := b[..|b| - 1], b[from..];
      ChangesCounted(shorter, from);
      OneChange(b, from);
      assert w[..|w| - 1] == shorter[from..];
    }
  }

  /** Lockdown by counts, of the changes after index `from`: there are fewer than five, or, of those that are not
      zero, neither the rises nor the falls make up the required share, where no such change counts as share 0. */
  ghost predicate LockedBy(p: Params, b: seq<real>, from: nat) {
    var up, down := |Ups(b, from)|, |Downs(b, from)|;
    || |b| - 1 - from < 5
    || (up + down == 0 && 0.0 < p.directionalityMin)
    || (up + down > 0 && up as real / (up + down) as real < p.directionalityMin
        && down as real / (up + down) as real < p.directionalityMin)
  }

  lemma LockedMeans(p: Params, b: seq<real>)
    requires b != []
    ensures Locked(p, b) <==> LockedBy(p, b, if |b| > 11 then |b| - 11 else 0)
  {
    hide Ups;
    hide Downs;
    hide Rises;
    hide Falls;
    var from := if |b| > 11 then |b| - 11 else 0;
    ChangesCounted(b, from);
    assert b[0..] == b;
    var up, down := |Ups(b, from)|, |Downs(b, from)|;
    if up + down > 0 {
      SharesOrdered(up, down, up + down);
    }
  }

  lemma SharesOrdered(a: nat, b: nat, n: nat)
    requires n > 0
    ensures a <= b ==> a as real / n as real <= b as real / n as real
    ensures b <= a ==> b as real / n as real <= a as real / n as real
  {
  }

  // ---------------------------------------------------------------- the closing phases, one by one

  lemma StopsExact(p: Params, st: State, snap: Snapshot)
    requires Books(p, st)
    ensures var r := Fold(StopOne(p, snap), st, st.positions.order);
            && Books(p, r) && OnlyCloses(st, r)
            && forall s :: s in r.positions.items <==>
                  s in st.positions.items && !(s in snap.bars && snap.bars[s].low <= st.positions.items[s].stop)
  {
    hide Fold;
    hide Books;
    hide StopOne;
    var ks := st.positions.order;
    var r := Fold(StopOne(p, snap), st, ks);
    StopEffect(p, st, snap);
    FoldEnds(StopOne(p, snap), st, ks);
    StopSkipsFold(p, st, snap, ks, |ks|);
    forall s ensures s in r.positions.items <==>
      s in st.positions.items && !(s in snap.bars && snap.bars[s].low <= st.positions.items[s].stop)
    {
      if s in r.positions.items {
        assert AboveStop(snap, r, s);
      } else if s in st.positions.items && s in snap.bars && snap.bars[s].low > st.positions.items[s].stop {
        StopFoldKeeps(p, st, snap, ks, |ks|, s);
      }
    }
  }

  /** The level that a bar supports: its low less the buffer. */
  ghost function Support(p: Params, bar: Bar): real {
    bar.low * (1.0 - p.buffer)
  }

  lemma SupportIs(p: Params, bar: Bar)
    ensures StopLevel(p, bar) == Support(p, bar)
  {
  }

  /** The larger of a stop and the level that a bar of the symbol supports. */
  ghost predicate Raised(p: Params, before: Position, after: Position, snap: Snapshot, s: Symbol) {
    && before.(stop := after.stop) == after
    && (s !in snap.bars ==> after.stop == before.stop)
    && (s in snap.bars ==>
          var level := Support(p, snap.bars[s]);
          && after.stop >= before.stop && after.stop >= level
          && (after.stop == before.stop || after.stop == level))
  }

  ghost predicate RaisedAt(p: Params, a: State, b: State, snap: Snapshot, s: Symbol, visited: bool) {
    && (s in b.positions.items <==> s in a.positions.items)
    && (s in a.positions.items ==>
          if visited then Raised(p, a.positions.items[s], b.positions.items[s], snap, s)
          else a.positions.items[s] == b.positions.items[s])
  }

  lemma RatchetOneIs(p: Params, a: State, x: State, snap: Snapshot, k: Symbol, s: Symbol, visited: bool)
    requires RaisedAt(p, a, x, snap, s, visited)
    ensures RaisedAt(p, a, RatchetOne(p, snap)(x, k), snap, s, visited || s == k)
  {
    if k in snap.bars {
      SupportIs(p, snap.bars[k]);
    }
    hide Support;
    hide StopLevel;
  }

  lemma {:induction false} RatchetExact(p: Params, st: State, snap: Snapshot, ks: seq<Symbol>, n: nat, s: Symbol)
    requires n <= |ks|
    ensures RaisedAt(p, st, Fold(RatchetOne(p, snap), st, ks[..n]), snap, s, s in ks[..n])
  {
    hide Fold;
    hide RatchetOne;
    hide RaisedAt;
    FoldEnds(RatchetOne(p, snap), st, ks);
    if n == 0 {
      NotRaised(p, st, snap, s);
    } else {
      RatchetExact(p, st, snap, ks, n - 1, s);
      RatchetOneIs(p, st, Fold(RatchetOne(p, snap), st, ks[..n - 1]), snap, ks[n - 1], s, s in ks[..n - 1]);
      FoldStep(RatchetOne(p, snap), st, ks, n - 1);
      assert ks[..n] == ks[..n - 1] + [ks[n - 1]];
    }
  }

  lemma NotRaised(p: Params, st: State, snap: Snapshot, s: Symbol)
    ensures RaisedAt(p, st, st, snap, s, false)
  {
  }

  /** A held symbol qualifies for an addition: it trades, has additions left, closes above its entry and above its
      last earlier close, with enough flow, outside lockdown. */
  ghost predicate Pyramids(p: Params, st: State, s: Symbol, snap: Snapshot) {
    && s in st.positions.items && s in snap.bars && !st.lockdown
    && st.positions.items[s].additions < p.maxAdditions
    && snap.bars[s].close > st.positions.items[s].entry
    && (forall prior :: prior in NewestOf(HistoryOf(st, s)) ==> snap.bars[s].close > prior.close)
    && snap.bars[s].flow > p.minFlow
  }

  ghost function NewestOf(h: seq<Point>): set<Point> {
    if h == [] then {} else {h[|h| - 1]}
  }

  ghost predicate AddedAt(p: Params, a: State, b: State, snap: Snapshot, s: Symbol, visited: bool) {
    && OnlyPending(a, b)
    && (s in a.pending.items ==> s in b.pending.items && b.pending.items[s] == a.pending.items[s])
    && (s !in a.pending.items ==>
          && (s in b.pending.items <==> visited && Pyramids(p, a, s, snap))
          && (s in b.pending.items ==> b.pending.items[s] == Add(snap.time, a.positions.items[s].stop)))
  }

  lemma ProposeAddOneIs(p: Params, a: State, x: State, snap: Snapshot, k: Symbol, s: Symbol, visited: bool)
    requires AddedAt(p, a, x, snap, s, visited)
    requires k in a.positions.items ==> a.positions.items[k].symbol == k
    ensures AddedAt(p, a, ProposeAddOne(p, snap)(x, k), snap, s, visited || s == k)
  {
    hide HistoryOf;
    SameHistories(a, x, k);
    SameHistories(a, x, s);
  }

  lemma {:induction false} AddsExact(p: Params, st: State, snap: Snapshot, ks: seq<Symbol>, n: nat, s: Symbol)
    requires n <= |ks| && forall k :: k in st.positions.items ==> st.positions.items[k].symbol == k
    ensures AddedAt(p, st, Fold(ProposeAddOne(p, snap), st, ks[..n]), snap, s, s in ks[..n])
  {
    hide Fold;
    hide ProposeAddOne;
    hide AddedAt;
    FoldEnds(ProposeAddOne(p, snap), st, ks);
    if n == 0 {
      NotAdded(p, st, snap, s);
    } else {
      AddsExact(p, st, snap, ks, n - 1, s);
      ProposeAddOneIs(p, st, Fold(ProposeAddOne(p, snap), st, ks[..n - 1]), snap, ks[n - 1], s, s in ks[..n - 1]);
      FoldStep(ProposeAddOne(p, snap), st, ks, n - 1);
      assert ks[..n] == ks[..n - 1] + [ks[n - 1]];
    }
  }

  lemma NotAdded(p: Params, st: State, snap: Snapshot, s: Symbol)
    ensures AddedAt(p, st, st, snap, s, false)
  {
  }

  // ---------------------------------------------------------------- entry signals

  /** A bar signals an entry. `pending` is consulted for the symbols before s, whose bars come first. */
  ghost predicate EntryDue(p: Params, st: State, pending: Dict<Proposal>, snap: Snapshot, s: Symbol) {
    && s in snap.bars && !st.lockdown && s !in st.positions.items
    && var h, bar, b := HistoryOf(st, s) + NewPoint(snap, s), snap.bars[s], st.benchmarks;
       && |h| >= p.warmup && p.signal(h)
       && |b| >= 2 && b[|b| - 2] < b[|b| - 1]
       && 0.0 < Support(p, bar) < bar.close
       && Uncorrelated(p, st, pending, snap.time, s)
  }

  /** The pair test passes with every rival, on what was known before the bar. */
  ghost predicate Uncorrelated(p: Params, st: State, pending: Dict<Proposal>, t: Time, s: Symbol) {
    forall peer :: Rival(st, pending, s, peer) ==>
      p.pairOk(Before(HistoryOf(st, s), t), Before(HistoryOf(st, peer), t))
  }

  /** Another symbol that is held, or proposed for entry earlier on this bar. */
  ghost predicate Rival(st: State, pending: Dict<Proposal>, s: Symbol, peer: Symbol) {
    || (peer in st.positions.items && peer != s)
    || (peer in pending.items && pending.items[peer].Entry? && peer < s)
  }

  /** What the first n symbols of the bar have done to key k. */
  ghost predicate SignalledAt(p: Params, a: State, b: State, snap: Snapshot, n: nat, k: Symbol)
    requires n <= |snap.order|
  {
    && HistoryOf(b, k) == HistoryOf(a, k) + (if k in snap.order[..n] then NewPoint(snap, k) else [])
    && (if k in snap.order[..n] && EntryDue(p, a, b.pending, snap, k)
        then k in b.pending.items && b.pending.items[k] == Entry(snap.time, Support(p, snap.bars[k]))
        else (k in b.pending.items <==> k in a.pending.items)
             && (k in b.pending.items ==> b.pending.items[k] == a.pending.items[k]))
  }

  ghost predicate SignalledUpTo(p: Params, a: State, b: State, snap: Snapshot, n: nat)
    requires n <= |snap.order|
  {
    && a.(pending := b.pending, histories := b.histories) == b
    && forall k :: SignalledAt(p, a, b, snap, n, k)
  }

  ghost predicate NoEntries(st: State) {
    forall k :: k in st.pending.items ==> !st.pending.items[k].Entry?
  }

  lemma BeforeWithPoint(h: seq<Point>, snap: Snapshot, k: Symbol)
    ensures Before(h + NewPoint(snap, k), snap.time) == Before(h, snap.time)
  {
    if k in snap.bars {
      BeforeSnoc(h, NewPoint(snap, k)[0], snap.time);
    } else {
      assert h + NewPoint(snap, k) == h;
    }
  }

  /** While the bar of symbol number n is examined, only what was known before this bar counts of any symbol. */
  lemma SeenBefore(p: Params, a: State, x: State, snap: Snapshot, n: nat, k: Symbol)
    requires n < |snap.order| && SignalledAt(p, a, x, snap, n, k) && snap.order[n] in snap.bars
    ensures var s := snap.order[n];
            Before(HistoryOf(Recorded(x, s, snap.bars[s], snap.time), k), snap.time)
            == Before(HistoryOf(a, k), snap.time)
  {
    hide Before;
    hide EntryDue;
    var s := snap.order[n];
    RecordingInvisible(x, s, snap.bars[s], snap.time, k, snap.time);
    BeforeWithPoint(HistoryOf(a, k), snap, k);
    assert HistoryOf(a, k) + [] == HistoryOf(a, k);
  }

  lemma RivalsLive(p: Params, a: State, x: State, snap: Snapshot, n: nat, peer: Symbol)
    requires n < |snap.order| && SignalledUpTo(p, a, x, snap, n) && NoEntries(a)
    ensures var s := snap.order[n]; Rival(a, x.pending, s, peer) <==> Live(x, peer) && peer != s
  {
    hide EntryDue;
    hide HistoryOf;
    var s := snap.order[n];
    assert SignalledAt(p, a, x, snap, n, peer);
    assert forall i :: 0 <= i < n ==> snap.order[i] < s;
  }

  lemma CorrelationMeans(p: Params, a: State, x: State, snap: Snapshot, n: nat)
    requires n < |snap.order| && SignalledUpTo(p, a, x, snap, n) && NoEntries(a) && snap.order[n] in snap.bars
    ensures var s := snap.order[n];
            CorrelationOk(p, Recorded(x, s, snap.bars[s], snap.time), s, snap.time)
            <==> Uncorrelated(p, a, x.pending, snap.time, s)
  {
    hide SignalledAt;
    hide HistoryOf;
    hide Before;
    hide Rival;
    var s := snap.order[n];
    var r := Recorded(x, s, snap.bars[s], snap.time);
    assert SignalledAt(p, a, x, snap, n, s);
    SeenBefore(p, a, x, snap, n, s);
    forall peer
      ensures Rival(a, x.pending, s, peer) <==> Live(r, peer) && peer != s
      ensures Before(HistoryOf(r, peer), snap.time) == Before(HistoryOf(a, peer), snap.time)
    {
      RivalsLive(p, a, x, snap, n, peer);
      assert SignalledAt(p, a, x, snap, n, peer);
      SeenBefore(p, a, x, snap, n, peer);
    }
    forall peer | Live(r, peer) ensures peer in r.positions.items.Keys + r.pending.items.Keys {
    }
  }

  lemma SignalsMean(p: Params, a: State, x: State, snap: Snapshot, n: nat)
    requires n < |snap.order| && SignalledUpTo(p, a, x, snap, n) && NoEntries(a) && snap.order[n] in snap.bars
    ensures var s := snap.order[n]; var bar := snap.bars[s];
            Signals(p, Recorded(x, s, bar, snap.time), s, bar, snap.time) <==> EntryDue(p, a, x.pending, snap, s)
  {
    hide *;
    var s := snap.order[n];
    CorrelationMeans(p, a, x, snap, n);
    HistoryAt(p, a, x, snap, n);
    SameSignal(p, a, x.pending, Recorded(x, s, snap.bars[s], snap.time), snap, s);
  }

  lemma SameSignal(p: Params, a: State, pending: Dict<Proposal>, r: State, snap: Snapshot, s: Symbol)
    requires s in snap.bars && HistoryOf(r, s) == HistoryOf(a, s) + NewPoint(snap, s)
    requires r.positions == a.positions && r.lockdown == a.lockdown && r.benchmarks == a.benchmarks
    requires CorrelationOk(p, r, s, snap.time) <==> Uncorrelated(p, a, pending, snap.time, s)
    ensures Signals(p, r, s, snap.bars[s], snap.time) <==> EntryDue(p, a, pending, snap, s)
  {
    hide CorrelationOk;
    hide Uncorrelated;
    hide HistoryOf;
    hide NewPoint;
    SupportIs(p, snap.bars[s]);
    hide Support;
    hide StopLevel;
  }

  lemma HistoryAt(p: Params, a: State, x: State, snap: Snapshot, n: nat)
    requires n < |snap.order| && SignalledUpTo(p, a, x, snap, n) && snap.order[n] in snap.bars
    ensures var s := snap.order[n]; var r := Recorded(x, s, snap.bars[s], snap.time);
            && HistoryOf(r, s) == HistoryOf(a, s) + NewPoint(snap, s) && r.pending == x.pending
            && r.positions == a.positions && r.lockdown == a.lockdown && r.benchmarks == a.benchmarks
  {
    hide EntryDue;
    var s := snap.order[n];
    assert SignalledAt(p, a, x, snap, n, s);
    assert s !in snap.order[..n];
    assert HistoryOf(a, s) + [] == HistoryOf(a, s);
  }

  lemma DueKept(p: Params, a: State, x: Dict<Proposal>, y: Dict<Proposal>, snap: Snapshot, n: nat, i: nat)
    requires i <= n < |snap.order|
    requires forall k :: k != snap.order[n] ==>
               (k in x.items <==> k in y.items) && (k in x.items ==> x.items[k] == y.items[k])
    ensures EntryDue(p, a, x, snap, snap.order[i]) <==> EntryDue(p, a, y, snap, snap.order[i])
  {
    hide HistoryOf;
    hide Before;
    var s := snap.order[i];
    assert s <= snap.order[n];
    assert forall peer :: Rival(a, x, s, peer) <==> Rival(a, y, s, peer);
  }

  lemma SignalOneRecords(p: Params, x: State, snap: Snapshot, s: Symbol)
    requires s in snap.bars
    ensures var r := SignalOne(p, snap)(x, s);
            forall k :: HistoryOf(r, k) == HistoryOf(x, k) + if k == s then NewPoint(snap, k) else []
  {
    hide Signals;
    hide StopLevel;
  }

  /** One symbol's turn. */
  ghost predicate Turn(p: Params, a: State, x: State, r: State, snap: Snapshot, s: Symbol) {
    && x.(pending := r.pending, histories := r.histories) == r
    && (forall k :: k != s ==>
          (k in x.pending.items <==> k in r.pending.items)
          && (k in x.pending.items ==> x.pending.items[k] == r.pending.items[k]))
    && s in snap.bars
    && (if EntryDue(p, a, x.pending, snap, s)
        then s in r.pending.items && r.pending.items[s] == Entry(snap.time, Support(p, snap.bars[s]))
        else r.pending == x.pending)
  }

  lemma SignalOneTurn(p: Params, a: State, x: State, snap: Snapshot, n: nat)
    requires n < |snap.order| && SignalledUpTo(p, a, x, snap, n) && NoEntries(a) && snap.order[n] in snap.bars
    ensures Turn(p, a, x, SignalOne(p, snap)(x, snap.order[n]), snap, snap.order[n])
  {
    SignalsMean(p, a, x, snap, n);
    SupportIs(p, snap.bars[snap.order[n]]);
    hide Support;
    hide StopLevel;
    hide EntryDue;
    hide Signals;
    hide HistoryOf;
    hide SignalledUpTo;
  }

  lemma TurnTaken(p: Params, a: State, x: State, r: State, snap: Snapshot, n: nat, k: Symbol)
    requires n < |snap.order| && SignalledAt(p, a, x, snap, n, k) && Turn(p, a, x, r, snap, snap.order[n])
    requires HistoryOf(r, k) == HistoryOf(x, k) + if k == snap.order[n] then NewPoint(snap, k) else []
    ensures SignalledAt(p, a, r, snap, n + 1, k)
  {
    hide EntryDue;
    hide HistoryOf;
    hide NewPoint;
    var s := snap.order[n];
    assert snap.order[..n + 1] == snap.order[..n] + [s];
    assert s !in snap.order[..n];
    assert HistoryOf(x, k) + [] == HistoryOf(x, k) && HistoryOf(a, k) + [] == HistoryOf(a, k);
    if k in snap.order[..n + 1] {
      var i :| 0 <= i < n + 1 && snap.order[i] == k;
      DueKept(p, a, x.pending, r.pending, snap, n, i);
    }
  }

  lemma SignalOneIs(p: Params, a: State, x: State, snap: Snapshot, n: nat)
    requires n < |snap.order| && SignalledUpTo(p, a, x, snap, n) && NoEntries(a)
    ensures SignalledUpTo(p, a, SignalOne(p, snap)(x, snap.order[n]), snap, n + 1)
  {
    var s := snap.order[n];
    assert s in snap.order;
    var r := SignalOne(p, snap)(x, s);
    SignalOneTurn(p, a, x, snap, n);
    SignalOneRecords(p, x, snap, s);
    hide SignalOne;
    hide SignalledAt;
    hide NewPoint;
    hide HistoryOf;
    var m := n + 1;
    forall k: Symbol ensures SignalledAt(p, a, r, snap, m, k) {
      assert SignalledAt(p, a, x, snap, n, k);
      TurnTaken(p, a, x, r, snap, n, k);
    }
  }

  lemma {:induction false} SignalsExact(p: Params, st: State, snap: Snapshot, n: nat)
    requires n <= |snap.order| && NoEntries(st)
    ensures SignalledUpTo(p, st, Fold(SignalOne(p, snap), st, snap.order[..n]), snap, n)
  {
    hide Fold;
    hide SignalOne;
    FoldEnds(SignalOne(p, snap), st, snap.order);
    if n == 0 {
      forall k ensures SignalledAt(p, st, st, snap, 0, k) {
        assert HistoryOf(st, k) + [] == HistoryOf(st, k);
      }
    } else {
      hide SignalledUpTo;
      SignalsExact(p, st, snap, n - 1);
      SignalOneIs(p, st, Fold(SignalOne(p, snap), st, snap.order[..n - 1]), snap, n - 1);
      FoldStep(SignalOne(p, snap), st, snap.order, n - 1);
    }
  }

  // ---------------------------------------------------------------- a whole bar

  /** The closing phases of a bar, key by key, between its opening `mid` and its end r. */
  ghost predicate ClosedAt(p: Params, mid: State, r: State, snap: Snapshot, s: Symbol) {
    && (s in r.positions.items <==>
          s in mid.positions.items && !(s in snap.bars && snap.bars[s].low <= mid.positions.items[s].stop))
    && (s in r.positions.items ==> Raised(p, mid.positions.items[s], r.positions.items[s], snap, s))
    && PendingAt(p, mid, r, snap, s)
  }

  /** The proposal of a symbol after the bar, if any. */
  ghost predicate PendingAt(p: Params, mid: State, r: State, snap: Snapshot, s: Symbol) {
    if s in r.positions.items && r.lockdown then
      s in r.pending.items && r.pending.items[s] == Exit(snap.time)
    else if s in r.positions.items && s in mid.pending.items then
      s in r.pending.items && r.pending.items[s] == mid.pending.items[s]
    else if Pyramids(p, r.(histories := mid.histories), s, snap) then
      s in r.pending.items && r.pending.items[s] == Add(snap.time, r.positions.items[s].stop)
    else if EntryDue(p, r.(histories := mid.histories), r.pending, snap, s) then
      s in r.pending.items && r.pending.items[s] == Entry(snap.time, Support(p, snap.bars[s]))
    else s !in r.pending.items
  }

  /** The states between the closing phases, seen from key s. */
  ghost predicate Phased(p: Params, mid: State, s4: State, s5: State, s6: State, s7: State, r: State,
                         snap: Snapshot, s: Symbol) {
    && OnlyCloses(mid, s4)
    && (s in s4.positions.items <==>
          s in mid.positions.items && !(s in snap.bars && snap.bars[s].low <= mid.positions.items[s].stop))
    && s4.(pending := s5.pending, benchmarks := s5.benchmarks, lockdown := s5.lockdown) == s5
    && (s in s4.positions.items && s5.lockdown ==>
          s in s5.pending.items && s5.pending.items[s] == Exit(snap.time))
    && (s !in s4.positions.items || !s5.lockdown ==>
          && (s in s5.pending.items <==> s in s4.pending.items)
          && (s in s5.pending.items ==> s5.pending.items[s] == s4.pending.items[s]))
    && s5.(positions := s6.positions) == s6
    && (s in s6.positions.items <==> s in s5.positions.items)
    && (s in s5.positions.items ==> Raised(p, s5.positions.items[s], s6.positions.items[s], snap, s))
    && AddedAt(p, s6, s7, snap, s, s in s6.positions.items)
    && s7.(pending := r.pending, histories := r.histories) == r
    && SignalledAt(p, s7, r, snap, |snap.order|, s)
  }

  lemma PhasesCompose(p: Params, mid: State, s4: State, s5: State, s6: State, s7: State, r: State,
                      snap: Snapshot, s: Symbol)
    requires Phased(p, mid, s4, s5, s6, s7, r, snap, s) && OnlyWaitingExits(mid, snap)
    ensures ClosedAt(p, mid, r, snap, s)
  {
    SameConditions(p, mid, s6, s7, r, snap, s);
    hide EntryDue;
    hide Pyramids;
    hide HistoryOf;
    hide Raised;
    hide TradesFrom;
    assert snap.order[..|snap.order|] == snap.order;
  }

  lemma SameConditions(p: Params, mid: State, s6: State, s7: State, r: State, snap: Snapshot, s: Symbol)
    requires s6.histories == mid.histories && s7.histories == mid.histories
    requires s6.positions == r.positions == s7.positions && s6.lockdown == r.lockdown == s7.lockdown
    requires s7.benchmarks == r.benchmarks
    ensures var a := r.(histories := mid.histories);
            && (Pyramids(p, a, s, snap) <==> Pyramids(p, s6, s, snap))
            && (EntryDue(p, a, r.pending, snap, s) <==> EntryDue(p, s7, r.pending, snap, s))
  {
    hide Uncorrelated;
    hide NewPoint;
    hide HistoryOf;
    var a := r.(histories := mid.histories);
    SameRivals(p, a, s7, r.pending, snap.time, s);
    SameHistories(a, s6, s);
    SameHistories(a, s7, s);
  }

  lemma SameRivals(p: Params, a: State, b: State, pending: Dict<Proposal>, t: Time, s: Symbol)
    requires a.histories == b.histories && a.positions == b.positions
    ensures Uncorrelated(p, a, pending, t, s) <==> Uncorrelated(p, b, pending, t, s)
  {
    hide Before;
    hide HistoryOf;
    forall k: Symbol ensures HistoryOf(a, k) == HistoryOf(b, k) {
      SameHistories(a, b, k);
    }
    assert forall peer :: Rival(a, pending, s, peer) <==> Rival(b, pending, s, peer);
  }

  lemma CloseExact(p: Params, st: State, snap: Snapshot, s: Symbol)
    requires Books(p, st) && OnlyWaitingExits(st, snap)
    ensures var r := ClosePhase(p, st, snap);
            && r.benchmarks == st.benchmarks + [snap.benchmark] && r.lockdown == Locked(p, r.benchmarks)
            && ClosedAt(p, st, r, snap, s)
  {
    hide Fold;
    hide Books;
    hide LockdownPhase;
    hide StopOne;
    hide RatchetOne;
    hide ProposeAddOne;
    hide SignalOne;
    hide SignalledAt;
    hide AddedAt;
    hide Raised;
    hide Locked;
    var s4 := Fold(StopOne(p, snap), st, st.positions.order);
    StopsExact(p, st, snap);
    var s5 := LockdownPhase(p, s4, snap);
    LockdownEffect(p, s4, snap);
    LockdownIs(p, s4, snap);
    SameBooksKeep(p, s4, s5);
    var ks5 := s5.positions.order;
    var s6 := Fold(RatchetOne(p, snap), s5, ks5);
    RatchetFold(p, s5, snap, ks5, |ks5|);
    RatchetExact(p, s5, snap, ks5, |ks5|, s);
    FoldEnds(RatchetOne(p, snap), s5, ks5);
    var ks6 := s6.positions.order;
    var s7 := Fold(ProposeAddOne(p, snap), s6, ks6);
    AddsFold(p, s6, snap, ks6, |ks6|);
    BooksKeys(p, s6);
    AddsExact(p, s6, snap, ks6, |ks6|, s);
    FoldEnds(ProposeAddOne(p, snap), s6, ks6);
    var r := Fold(SignalOne(p, snap), s7, snap.order);
    NoEntriesYet(p, st, s4, s5, s6, s7, snap);
    SignalsExact(p, s7, snap, |snap.order|);
    FoldEnds(SignalOne(p, snap), s7, snap.order);
    assert ks5[..|ks5|] == ks5 && ks6[..|ks6|] == ks6;
    assert SignalledAt(p, s7, r, snap, |snap.order|, s);
    PhasesCompose(p, st, s4, s5, s6, s7, r, snap, s);
  }

  lemma NoEntriesYet(p: Params, mid: State, s4: State, s5: State, s6: State, s7: State, snap: Snapshot)
    requires OnlyWaitingExits(mid, snap) && OnlyCloses(mid, s4)
    requires forall s :: s in s4.positions.items && s5.lockdown ==>
               s in s5.pending.items && s5.pending.items[s] == Exit(snap.time)
    requires forall s :: s !in s4.positions.items || !s5.lockdown ==>
               && (s in s5.pending.items <==> s in s4.pending.items)
               && (s in s5.pending.items ==> s5.pending.items[s] == s4.pending.items[s])
    requires s6.pending == s5.pending && AddsProposed(p, s6, s7, snap)
    ensures NoEntries(s7)
  {
  }

  lemma LockdownIs(p: Params, st: State, snap: Snapshot)
    ensures var r := LockdownPhase(p, st, snap);
            r.benchmarks == st.benchmarks + [snap.benchmark] && r.lockdown == Locked(p, r.benchmarks)
  {
    LockdownEffect(p, st, snap);
    hide Locked;
    hide Fold;
    var b := st.benchmarks + [snap.benchmark];
    var s1 := st.(benchmarks := b, lockdown := Locked(p, b));
    ExitsFold(s1, snap, s1.positions.order, |s1.positions.order|);
    FoldEnds(ExitNext(snap), s1, s1.positions.order);
  }

  // ---------------------------------------------------------------- every bar of every replay

  lemma RunNext(p: Params, snaps: seq<Snapshot>, snap: Snapshot)
    ensures Run(p, snaps + [snap]) == BarStep(p, Run(p, snaps), snap)
  {
    hide BarStep;
    assert (snaps + [snap])[..|snaps|] == snaps;
  }

  lemma BarExact(p: Params, snaps: seq<Snapshot>, snap: Snapshot, s: Symbol)
    ensures var st, mid, r := Run(p, snaps), OpenPhase(p, Run(p, snaps), snap), Run(p, snaps + [snap]);
            && Opened(p, st, mid, snap) && OnlyWaitingExits(mid, snap) && ClosedAt(p, mid, r, snap, s)
            && r.benchmarks == st.benchmarks + [snap.benchmark] && r.lockdown == Locked(p, r.benchmarks)
  {
    hide OpenPhase;
    hide ClosePhase;
    hide Run;
    hide Books;
    hide ClosedAt;
    hide Opened;
    hide OnlyWaitingExits;
    hide Locked;
    RunNext(p, snaps, snap);
    var st := Run(p, snaps);
    RunSettled(p, snaps);
    SettledExecutable(p, st, LastTime(snaps));
    OpenPhaseEffect(p, st, snap);
    OpenedLeavesWaitingExits(p, st, OpenPhase(p, st, snap), snap, LastTime(snaps));
    OpenedBooks(p, st, OpenPhase(p, st, snap), snap);
    OpenedMarket(p, st, OpenPhase(p, st, snap), snap);
    CloseExact(p, OpenPhase(p, st, snap), snap, s);
  }

  lemma OpenedMarket(p: Params, a: State, b: State, snap: Snapshot)
    requires Opened(p, a, b, snap)
    ensures SameMarket(a, b)
  {
  }

  /** A lot that is open after the opening of a bar and after the bar has then as its stop the larger of the stop it
      had and the low of the bar less the buffer; where the symbol does not trade, the stop it had. Nothing else of
      the lot changes. */
  lemma StopAfterBar(p: Params, snaps: seq<Snapshot>, snap: Snapshot, s: Symbol)
    requires s in OpenPhase(p, Run(p, snaps), snap).positions.items && s in Run(p, snaps + [snap]).positions.items
    ensures var before := OpenPhase(p, Run(p, snaps), snap).positions.items[s];
            var after := Run(p, snaps + [snap]).positions.items[s];
            && after == before.(stop := after.stop)
            && after.stop == if s in snap.bars && snap.bars[s].low * (1.0 - p.buffer) > before.stop
                             then snap.bars[s].low * (1.0 - p.buffer) else before.stop
  {
    hide OpenPhase;
    hide Run;
    hide PendingAt;
    BarExact(p, snaps, snap, s);
    hide Opened;
  }

  ghost function Benchmarks(snaps: seq<Snapshot>): seq<real> {
    seq(|snaps|, i requires 0 <= i < |snaps| => snaps[i].benchmark)
  }

  lemma BenchmarksNext(p: Params, snaps: seq<Snapshot>, snap: Snapshot)
    ensures var r := Run(p, snaps + [snap]);
            r.benchmarks == Run(p, snaps).benchmarks + [snap.benchmark] && r.lockdown == Locked(p, r.benchmarks)
  {
    BarExact(p, snaps, snap, 0);
    hide *;
  }

  lemma {:induction false} BenchmarksSeen(p: Params, snaps: seq<Snapshot>)
    ensures Run(p, snaps).benchmarks == Benchmarks(snaps)
  {
    hide Run;
    if snaps == [] {
      EmptyRun(p, snaps);
    } else {
      var init, last := snaps[..|snaps| - 1], snaps[|snaps| - 1];
      BenchmarksSeen(p, init);
      BenchmarksNext(p, init, last);
      assert init + [last] == snaps;
      assert Benchmarks(init) + [last.benchmark] == Benchmarks(snaps);
    }
  }

  /** After every bar lockdown holds if and only if fewer than five of the last ten benchmark changes have been
      seen, or neither the rises nor the falls reach the required share of those of them that are not zero. */
  lemma LockdownWrittenOut(p: Params, snaps: seq<Snapshot>)
    requires snaps != []
    ensures var from := if |snaps| > 11 then |snaps| - 11 else 0;
            Run(p, snaps).lockdown <==> LockedBy(p, Benchmarks(snaps), from)
  {
    hide Run;
    hide Locked;
    hide LockedBy;
    var init, last := snaps[..|snaps| - 1], snaps[|snaps| - 1];
    assert init + [last] == snaps;
    BenchmarksNext(p, init, last);
    BenchmarksSeen(p, snaps);
    LockedMeans(p, Benchmarks(snaps));
  }

  /** After every bar an exit is pending for a symbol if and only if it is held and either lockdown holds or the exit
      was pending before and the symbol did not trade. */
  lemma ExitIff(p: Params, snaps: seq<Snapshot>, snap: Snapshot, s: Symbol)
    ensures var st, r := Run(p, snaps), Run(p, snaps + [snap]);
            (s in r.pending.items && r.pending.items[s].Exit?) <==>
              && s in r.positions.items
              && (r.lockdown || (s !in snap.bars && s in st.pending.items && st.pending.items[s].Exit?))
  {
    hide OpenPhase;
    hide Run;
    hide Books;
    hide TradesFrom;
    hide Pyramids;
    hide EntryDue;
    BarExact(p, snaps, snap, s);
    var st := Run(p, snaps);
    RunSettled(p, snaps);
    if ExitPending(st, s) && s !in snap.bars {
      OpenPhaseKeepsWaitingExit(p, st, snap, s);
    }
  }

  // ---------------------------------------------------------------- additions and entries

  lemma HeldWasLive(p: Params, snaps: seq<Snapshot>, snap: Snapshot, s: Symbol)
    requires s in Run(p, snaps + [snap]).positions.items
    ensures Live(Run(p, snaps), s)
  {
    hide OpenPhase;
    hide Run;
    hide Books;
    hide TradesFrom;
    hide PendingAt;
    BarExact(p, snaps, snap, s);
    assert OpenedFrom(Run(p, snaps), OpenPhase(p, Run(p, snaps), snap), s, snap);
  }

  /** After every bar an addition is pending for a held symbol if and only if lockdown does not hold and the bar of
      the symbol closes above the entry and above the symbol's last earlier close (on bar k) with more than the
      required flow, the lot having additions left; it is then stamped with this bar and carries the stop. */
  lemma AdditionIff(p: Params, snaps: seq<Snapshot>, snap: Snapshot, s: Symbol) returns (k: nat)
    requires Increasing(snaps + [snap]) && s in Run(p, snaps + [snap]).positions.items
    ensures LastTraded(snaps, s, k)
    ensures var r := Run(p, snaps + [snap]); var pos := r.positions.items[s];
            && ((s in r.pending.items && r.pending.items[s].Add?) <==>
                  && s in snap.bars && !r.lockdown && pos.additions < p.maxAdditions
                  && snap.bars[s].close > pos.entry && snap.bars[s].close > snaps[k].bars[s].close
                  && snap.bars[s].flow > p.minFlow)
            && (s in r.pending.items && r.pending.items[s].Add? ==> r.pending.items[s] == Add(snap.time, pos.stop))
  {
    hide OpenPhase;
    hide Run;
    hide Books;
    hide TradesFrom;
    hide Points;
    hide AllPairsPassed;
    hide Raised;
    IncreasingPrefix(snaps, snap);
    HeldWasLive(p, snaps, snap, s);
    PairsPassed(p, snaps);
    LiveHasHistory(p, Run(p, snaps), s);
    HistoryIsPoints(p, snaps, s);
    k := LastPoint(snaps, s);
    BarExact(p, snaps, snap, s);
    var mid, r := OpenPhase(p, Run(p, snaps), snap), Run(p, snaps + [snap]);
    SameHistories(Run(p, snaps), mid, s);
    SameHistories(mid, r.(histories := mid.histories), s);
    hide HistoryOf;
    hide Uncorrelated;
  }

  lemma LiveHasHistory(p: Params, st: State, s: Symbol)
    requires AllPairsPassed(p, st) && Live(st, s)
    ensures HistoryOf(st, s) != []
  {
  }

  lemma {:induction false} BeforeAll(h: seq<Point>, t: Time)
    requires forall i :: 0 <= i < |h| ==> h[i].time < t
    ensures Before(h, t) == h
  {
    if h != [] {
      BeforeAll(h[..|h| - 1], t);
    }
  }

  lemma {:induction false} PointsEarlier(snaps: seq<Snapshot>, s: Symbol, t: Time)
    requires forall j :: 0 <= j < |snaps| ==> snaps[j].time < t
    ensures forall i :: 0 <= i < |Points(snaps, s)| ==> Points(snaps, s)[i].time < t
  {
    if snaps != [] {
      PointsEarlier(snaps[..|snaps| - 1], s, t);
    }
  }

  lemma KnownBefore(p: Params, snaps: seq<Snapshot>, snap: Snapshot, a: State, s: Symbol)
    requires Increasing(snaps + [snap]) && a.histories == Run(p, snaps).histories
    ensures HistoryOf(a, s) == Points(snaps, s) && Before(HistoryOf(a, s), snap.time) == Points(snaps, s)
  {
    hide Run;
    hide Points;
    SameHistories(a, Run(p, snaps), s);
    HistoryIsPoints(p, snaps, s);
    forall j | 0 <= j < |snaps| ensures snaps[j].time < snap.time {
      assert (snaps + [snap])[j] == snaps[j] && (snaps + [snap])[|snaps|] == snap;
    }
    PointsEarlier(snaps, s, snap.time);
    BeforeAll(Points(snaps, s), snap.time);
  }

  /** The pair test passes with every rival, on the bars seen. */
  ghost predicate PairsFine(p: Params, snaps: seq<Snapshot>, r: State, s: Symbol) {
    forall peer :: Rival(r, r.pending, s, peer) ==> p.pairOk(Points(snaps, s), Points(snaps, peer))
  }

  lemma UncorrelatedMeans(p: Params, snaps: seq<Snapshot>, snap: Snapshot, a: State, r: State, s: Symbol)
    requires Increasing(snaps + [snap]) && a.histories == Run(p, snaps).histories && a.positions == r.positions
    ensures Uncorrelated(p, a, r.pending, snap.time, s) <==> PairsFine(p, snaps, r, s)
  {
    hide Run;
    hide Points;
    hide HistoryOf;
    hide Before;
    hide Increasing;
    KnownBefore(p, snaps, snap, a, s);
    forall peer: Symbol
      ensures Rival(a, r.pending, s, peer) <==> Rival(r, r.pending, s, peer)
      ensures Before(HistoryOf(a, peer), snap.time) == Points(snaps, peer)
    {
      KnownBefore(p, snaps, snap, a, peer);
    }
  }

  lemma PointsNext(snaps: seq<Snapshot>, snap: Snapshot, s: Symbol)
    ensures Points(snaps + [snap], s) == Points(snaps, s) + NewPoint(snap, s)
  {
    assert (snaps + [snap])[..|snaps|] == snaps;
  }

  lemma BenchmarkRose(p: Params, snaps: seq<Snapshot>, snap: Snapshot)
    ensures var b := Run(p, snaps + [snap]).benchmarks;
            (|b| >= 2 && b[|b| - 2] < b[|b| - 1]) <==> (snaps != [] && snaps[|snaps| - 1].benchmark < snap.benchmark)
  {
    hide Run;
    BenchmarksSeen(p, snaps + [snap]);
  }

  lemma DueMeans(p: Params, snaps: seq<Snapshot>, snap: Snapshot, a: State, r: State, s: Symbol)
    requires Increasing(snaps + [snap]) && r == Run(p, snaps + [snap])
    requires a == r.(histories := Run(p, snaps).histories)
    ensures var h := Points(snaps + [snap], s);
            EntryDue(p, a, r.pending, snap, s) <==>
              && s in snap.bars && s !in r.positions.items && !r.lockdown
              && |h| >= p.warmup && p.signal(h)
              && snaps != [] && snaps[|snaps| - 1].benchmark < snap.benchmark
              && 0.0 < Support(p, snap.bars[s]) < snap.bars[s].close
              && PairsFine(p, snaps, r, s)
  {
    hide Run;
    hide NewPoint;
    hide HistoryOf;
    hide Points;
    hide Increasing;
    hide PairsFine;
    hide Uncorrelated;
    PointsNext(snaps, snap, s);
    BenchmarkRose(p, snaps, snap);
    KnownBefore(p, snaps, snap, a, s);
    UncorrelatedMeans(p, snaps, snap, a, r, s);
  }

  /** After every bar an entry is pending for a symbol if and only if the symbol trades on it and is not held,
      lockdown does not hold, its history up to this bar is long enough and signals, the benchmark has risen, the
      low less the buffer is positive and below the close, and the pair test passes on the histories before this bar
      with every symbol that is held or that comes earlier in the symbol order and is pending for entry; it is
      then stamped with this bar and carries the low less the buffer as its stop. */
  lemma EntryIff(p: Params, snaps: seq<Snapshot>, snap: Snapshot, s: Symbol)
    requires Increasing(snaps + [snap])
    ensures var r, h := Run(p, snaps + [snap]), Points(snaps + [snap], s);
            && ((s in r.pending.items && r.pending.items[s].Entry?) <==>
                  && s in snap.bars && s !in r.positions.items && !r.lockdown
                  && |h| >= p.warmup && p.signal(h)
                  && snaps != [] && snaps[|snaps| - 1].benchmark < snap.benchmark
                  && 0.0 < Support(p, snap.bars[s]) < snap.bars[s].close
                  && PairsFine(p, snaps, r, s))
            && (s in r.pending.items && r.pending.items[s].Entry? ==>
                  s in snap.bars && r.pending.items[s] == Entry(snap.time, Support(p, snap.bars[s])))
  {
    hide OpenPhase;
    hide Run;
    hide Books;
    hide TradesFrom;
    hide Points;
    hide PairsFine;
    hide Raised;
    hide Pyramids;
    hide EntryDue;
    hide Increasing;
    BarExact(p, snaps, snap, s);
    var mid, r := OpenPhase(p, Run(p, snaps), snap), Run(p, snaps + [snap]);
    DueMeans(p, snaps, snap, r.(histories := mid.histories), r, s);
    DueIsFree(p, r.(histories := mid.histories), r.pending, snap, s);
  }

  lemma DueIsFree(p: Params, a: State, pending: Dict<Proposal>, snap: Snapshot, s: Symbol)
    ensures EntryDue(p, a, pending, snap, s) ==> s in snap.bars && s !in a.positions.items
    ensures Pyramids(p, a, s, snap) ==> s in a.positions.items
  {
  }

  // ---------------------------------------------------------------- every stop of every replay

  ghost predicate StopHeld(x: State, s: Symbol, stop: real) {
    s in x.positions.items ==> x.positions.items[s].stop == stop
  }

  /** Of the fills only an addition could move a stop, and it brings the stop it was proposed with. */
  lemma FillOneHoldsStop(p: Params, x: State, snap: Snapshot, item: (Symbol, Proposal), s: Symbol, stop: real)
    requires StopHeld(x, s, stop)
    requires item.0 == s ==> !item.1.Entry? && (item.1.Add? ==> item.1.trailStop <= stop)
    ensures StopHeld(FillOne(p, snap)(x, item), s, stop)
  {
    hide FillEntry;
    hide FillAdd;
    hide Enlarged;
    hide EntryNotional;
    hide AddNotional;
    hide RoomOf;
    hide WithFee;
    hide OpenPrice;
    hide Proceeds;
    if item.0 != s {
      FillOneTouches(p, x, item, snap);
      assert Untouched(x, FillOne(p, snap)(x, item), s);
    } else if s in snap.bars && item.1.Add? {
      FillAddIs(p, x, s, item.1.trailStop, snap);
      if AddFills(p, x, s, item.1.trailStop, snap) {
        var pos := x.positions.items[s];
        EnlargedLotKept(pos, AddNotional(p, RoomOf(p, x, snap), pos, OpenPrice(p, snap.bars[s]),
                                         Max(pos.stop, item.1.trailStop)),
                        OpenPrice(p, snap.bars[s]), Max(pos.stop, item.1.trailStop));
      }
    }
  }

  lemma {:induction false} FillFoldHoldsStop(p: Params, st: State, snap: Snapshot, items: seq<(Symbol, Proposal)>,
                                             n: nat, s: Symbol, stop: real)
    requires n <= |items| && StopHeld(st, s, stop)
    requires forall j :: 0 <= j < |items| && items[j].0 == s ==>
               !items[j].1.Entry? && (items[j].1.Add? ==> items[j].1.trailStop <= stop)
    ensures StopHeld(Fold(FillOne(p, snap), st, items[..n]), s, stop)
  {
    hide Fold;
    hide FillOne;
    FoldEnds(FillOne(p, snap), st, items);
    if n > 0 {
      FillFoldHoldsStop(p, st, snap, items, n - 1, s, stop);
      FillOneHoldsStop(p, Fold(FillOne(p, snap), st, items[..n - 1]), snap, items[n - 1], s, stop);
      FoldStep(FillOne(p, snap), st, items, n - 1);
    }
  }

  lemma OpeningHoldsStop(p: Params, st: State, snap: Snapshot, now: Time, s: Symbol)
    requires Settled(p, st, now) && s in st.positions.items
    ensures StopHeld(OpenPhase(p, st, snap), s, st.positions.items[s].stop)
  {
    hide Fold;
    hide Books;
    hide FillOne;
    hide GapStopOne;
    hide ExpireOne;
    hide Entries;
    var s1 := Fold(ExpireOne(snap), st, st.pending.order);
    ExpireEffect(st, snap);
    SameBooksKeep(p, st, s1);
    var s2 := Fold(GapStopOne(p, snap), s1, s1.positions.order);
    GapStopEffect(p, s1, snap);
    var items, stop := Entries(s2.pending), st.positions.items[s].stop;
    EntriesDistinct(s2.pending);
    forall j | 0 <= j < |items| && items[j].0 == s
      ensures !items[j].1.Entry? && (items[j].1.Add? ==> items[j].1.trailStop <= stop)
    {
      assert s in st.pending.items && st.pending.items[s] == items[j].1;
    }
    FillFoldHoldsStop(p, s2, snap, items, |items|, s, stop);
    FoldEnds(FillOne(p, snap), s2, items);
  }

  /** The level that bar k of the symbol supports. */
  ghost function LevelOn(p: Params, snaps: seq<Snapshot>, s: Symbol, k: nat): real
    requires k < |snaps| && s in snaps[k].bars
  {
    Support(p, snaps[k].bars[s])
  }

  /** A lot signalled on bar k and entered on the next: its stop is the largest level of the bars of its symbol from
      the signal bar on. */
  ghost predicate HighestLevel(p: Params, snaps: seq<Snapshot>, pos: Position, k: nat) {
    && k + 1 < |snaps| && snaps[k].time == pos.signalTime && snaps[k + 1].time == pos.entryTime
    && (forall i :: k <= i < |snaps| && pos.symbol in snaps[i].bars ==> LevelOn(p, snaps, pos.symbol, i) <= pos.stop)
    && (exists i :: k <= i < |snaps| && pos.symbol in snaps[i].bars && LevelOn(p, snaps, pos.symbol, i) == pos.stop)
  }

  lemma LevelRaised(p: Params, snaps: seq<Snapshot>, snap: Snapshot, before: Position, after: Position, k: nat)
    requires HighestLevel(p, snaps, before, k) && Raised(p, before, after, snap, before.symbol)
    ensures HighestLevel(p, snaps + [snap], after, k)
  {
    hide LevelOn;
    var all, s := snaps + [snap], before.symbol;
    forall i: nat | i < |snaps| && s in snaps[i].bars ensures LevelOn(p, all, s, i) == LevelOn(p, snaps, s, i) {
      LevelSame(p, snaps, snap, s, i);
    }
    assert all[|snaps|] == snap;
    if s in snap.bars {
      LevelLast(p, snaps, snap, s);
    }
    var i :| k <= i < |snaps| && s in snaps[i].bars && LevelOn(p, snaps, s, i) == before.stop;
    assert s in all[i].bars && LevelOn(p, all, s, i) == before.stop;
    if after.stop != before.stop {
      assert s in all[|snaps|].bars && LevelOn(p, all, s, |snaps|) == after.stop;
    }
  }

  lemma LevelSame(p: Params, snaps: seq<Snapshot>, snap: Snapshot, s: Symbol, i: nat)
    requires i < |snaps| && s in snaps[i].bars
    ensures LevelOn(p, snaps + [snap], s, i) == LevelOn(p, snaps, s, i)
  {
  }

  lemma LevelLast(p: Params, snaps: seq<Snapshot>, snap: Snapshot, s: Symbol)
    requires s in snap.bars
    ensures LevelOn(p, snaps + [snap], s, |snaps|) == Support(p, snap.bars[s])
  {
  }

  /** A lot filled on the bar after the one that proposed it. */
  lemma LevelFresh(p: Params, snaps: seq<Snapshot>, snap: Snapshot, lot: Position, after: Position)
    requires snaps != [] && lot.symbol in snap.bars && Raised(p, lot, after, snap, lot.symbol)
    requires lot.signalTime == snaps[|snaps| - 1].time && lot.entryTime == snap.time
    requires lot.symbol in snaps[|snaps| - 1].bars && lot.stop == LevelOn(p, snaps, lot.symbol, |snaps| - 1)
    ensures HighestLevel(p, snaps + [snap], after, |snaps| - 1)
  {
    hide LevelOn;
    var all, s, k := snaps + [snap], lot.symbol, |snaps| - 1;
    LevelSame(p, snaps, snap, s, k);
    LevelLast(p, snaps, snap, s);
    assert all[k] == snaps[k] && all[k + 1] == snap;
    if after.stop == lot.stop {
      assert s in all[k].bars && LevelOn(p, all, s, k) == after.stop;
    } else {
      assert s in all[k + 1].bars && LevelOn(p, all, s, k + 1) == after.stop;
    }
  }

  /** A pending entry was proposed on the last bar, with its level as the stop. */
  lemma PendingLevel(p: Params, snaps: seq<Snapshot>, s: Symbol)
    requires Increasing(snaps) && s in Run(p, snaps).pending.items && Run(p, snaps).pending.items[s].Entry?
    ensures snaps != [] && s in snaps[|snaps| - 1].bars
    ensures Run(p, snaps).pending.items[s] == Entry(snaps[|snaps| - 1].time, LevelOn(p, snaps, s, |snaps| - 1))
  {
    hide Run;
    hide Points;
    hide PairsFine;
    hide Increasing;
    if snaps == [] {
      EmptyRun(p, snaps);
    } else {
      var init, last := snaps[..|snaps| - 1], snaps[|snaps| - 1];
      assert init + [last] == snaps;
      EntryIff(p, init, last, s);
    }
  }

  lemma SameLevels(p: Params, snaps: seq<Snapshot>, a: Position, b: Position, k: nat)
    requires HighestLevel(p, snaps, a, k) && SameLot(a, b) && a.stop == b.stop
    ensures HighestLevel(p, snaps, b, k)
  {
    hide LevelOn;
  }

  lemma BarLot(p: Params, snaps: seq<Snapshot>, snap: Snapshot, s: Symbol)
    requires s in Run(p, snaps + [snap]).positions.items
    ensures var st, mid, r := Run(p, snaps), OpenPhase(p, Run(p, snaps), snap), Run(p, snaps + [snap]);
            && s in mid.positions.items && mid.positions.items[s].symbol == s
            && Raised(p, mid.positions.items[s], r.positions.items[s], snap, s)
            && (if s in st.positions.items
                then SameLot(st.positions.items[s], mid.positions.items[s])
                     && mid.positions.items[s].stop == st.positions.items[s].stop
                else s in st.pending.items && s in snap.bars
                     && Fresh(mid.positions.items[s], st.pending.items[s], s, snap))
  {
    hide OpenPhase;
    hide Run;
    hide Books;
    hide TradesFrom;
    hide PendingAt;
    hide Raised;
    var st, mid := Run(p, snaps), OpenPhase(p, Run(p, snaps), snap);
    BarExact(p, snaps, snap, s);
    RunSettled(p, snaps);
    assert OpenedFrom(st, mid, s, snap);
    BooksKeys(p, mid);
    if s in st.positions.items {
      OpeningHoldsStop(p, st, snap, LastTime(snaps), s);
    }
  }

  lemma StopCarried(p: Params, snaps: seq<Snapshot>, snap: Snapshot, s: Symbol, k: nat)
    requires s in Run(p, snaps).positions.items && s in Run(p, snaps + [snap]).positions.items
    requires HighestLevel(p, snaps, Run(p, snaps).positions.items[s], k)
    ensures HighestLevel(p, snaps + [snap], Run(p, snaps + [snap]).positions.items[s], k)
  {
    hide OpenPhase;
    hide Run;
    hide Raised;
    hide HighestLevel;
    BarLot(p, snaps, snap, s);
    var lot, mid := Run(p, snaps).positions.items[s], OpenPhase(p, Run(p, snaps), snap).positions.items[s];
    SameLevels(p, snaps, lot, mid, k);
    LevelRaised(p, snaps, snap, mid, Run(p, snaps + [snap]).positions.items[s], k);
  }

  lemma StopFilled(p: Params, snaps: seq<Snapshot>, snap: Snapshot, s: Symbol)
    requires Increasing(snaps) && s !in Run(p, snaps).positions.items && s in Run(p, snaps + [snap]).positions.items
    ensures snaps != []
    ensures HighestLevel(p, snaps + [snap], Run(p, snaps + [snap]).positions.items[s], |snaps| - 1)
  {
    hide OpenPhase;
    hide Run;
    hide Raised;
    hide HighestLevel;
    hide LevelOn;
    hide Increasing;
    BarLot(p, snaps, snap, s);
    PendingLevel(p, snaps, s);
    var mid := OpenPhase(p, Run(p, snaps), snap).positions.items[s];
    LevelFresh(p, snaps, snap, mid, Run(p, snaps + [snap]).positions.items[s]);
  }

  /** The stop of every lot held after any bar of any replay is the largest low less the buffer of the bars in which
      its symbol traded, from the bar that signalled it, the one before its entry, up to now. Neither the fill, nor
      additions, nor bars without the symbol move it. */
  lemma {:induction false} StopIsHighestLevel(p: Params, snaps: seq<Snapshot>, s: Symbol) returns (k: nat)
    requires Increasing(snaps) && s in Run(p, snaps).positions.items
    ensures HighestLevel(p, snaps, Run(p, snaps).positions.items[s], k)
    decreases |snaps|
  {
    hide Run;
    hide HighestLevel;
    hide Increasing;
    if snaps == [] {
      EmptyRun(p, snaps);
    } else {
      var init, last := snaps[..|snaps| - 1], snaps[|snaps| - 1];
      assert init + [last] == snaps;
      IncreasingPrefix(init, last);
      if s in Run(p, init).positions.items {
        k := StopIsHighestLevel(p, init, s);
        StopCarried(p, init, last, s, k);
      } else {
        StopFilled(p, init, last, s);
        k := |init| - 1;
      }
    }
  }
}
