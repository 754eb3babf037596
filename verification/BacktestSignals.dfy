/** When lots were signalled, how their stops move, and that every pair of them passed the
    correlation test. */
module BacktestSignals {
  import opened BacktestModel
  import opened BacktestBooks
  import opened BacktestProtocol
  import opened BacktestTheorems

  ghost predicate Increasing(snaps: seq<Snapshot>) {
    forall i, j :: 0 <= i < j < |snaps| ==> snaps[i].time < snaps[j].time
  }

  // ---------------------------------------------------------------- lots over one bar

  /** A lot after a bar was open before it, with a stop that did not fall, or was entered in it on an
      entry pending before it. */
  ghost predicate LotOrigin(a: State, pos: Position, snap: Snapshot) {
    || (pos.symbol in a.positions.items && SameLot(a.positions.items[pos.symbol], pos))
    || (&& pos.symbol in a.pending.items && a.pending.items[pos.symbol].Entry?
        && pos.signalTime == a.pending.items[pos.symbol].signalTime && pos.entryTime == snap.time)
  }

  ghost predicate BarLots(a: State, b: State, snap: Snapshot) {
    && (forall s :: s in b.positions.items ==>
          && b.positions.items[s].symbol == s && LotOrigin(a, b.positions.items[s], snap)
          && (s in a.positions.items && b.positions.items[s].entryTime != snap.time ==>
                a.positions.items[s].stop <= b.positions.items[s].stop))
    && (forall i :: 0 <= i < |b.trades| ==> b.trades[i] in a.trades || LotOrigin(a, b.trades[i].lot, snap))
  }

  lemma BarLotsCompose(p: Params, a: State, mid: State, b: State, snap: Snapshot)
    requires Opened(p, a, mid, snap) && LotsFrom(mid, b) && Books(p, b)
    ensures BarLots(a, b, snap)
  {
    hide Balanced;
    hide Logged;
    hide TradesSound;
    hide Sound;
    forall s | s in mid.positions.items ensures LotOrigin(a, mid.positions.items[s], snap) {
      assert OpenedFrom(a, mid, s, snap);
    }
    forall i | 0 <= i < |b.trades| ensures b.trades[i] in a.trades || LotOrigin(a, b.trades[i].lot, snap) {
      if b.trades[i] in mid.trades {
        var j :| 0 <= j < |mid.trades| && mid.trades[j] == b.trades[i];
      }
    }
    forall s | s in b.positions.items
      ensures LotOrigin(a, b.positions.items[s], snap)
      ensures s in a.positions.items && b.positions.items[s].entryTime != snap.time ==>
                a.positions.items[s].stop <= b.positions.items[s].stop
    {
      assert OpenedFrom(a, mid, s, snap);
    }
  }

  lemma BarLotsHold(p: Params, st: State, snap: Snapshot, before: Time)
    requires Settled(p, st, before)
    ensures BarLots(st, BarStep(p, st, snap), snap)
  {
    hide OpenPhase;
    hide ClosePhase;
    hide Books;
    hide Opened;
    hide LotsFrom;
    hide OnlyWaitingExits;
    OpenPhaseEffect(p, st, snap);
    OpenedLeavesWaitingExits(p, st, OpenPhase(p, st, snap), snap, before);
    ClosePhaseEffect(p, OpenPhase(p, st, snap), snap);
    BarLotsCompose(p, st, OpenPhase(p, st, snap), BarStep(p, st, snap), snap);
  }

  // ---------------------------------------------------------------- signal and entry times

  /** The signal bar is the bar immediately before the entry bar. */
  ghost predicate Timed(snaps: seq<Snapshot>, pos: Position) {
    exists k :: 0 < k < |snaps| && snaps[k - 1].time == pos.signalTime && snaps[k].time == pos.entryTime
  }

  ghost predicate AllTimed(snaps: seq<Snapshot>, st: State) {
    && (forall s :: s in st.positions.items ==> Timed(snaps, st.positions.items[s]))
    && (forall i :: 0 <= i < |st.trades| ==> Timed(snaps, st.trades[i].lot))
  }

  lemma TimedExtends(snaps: seq<Snapshot>, snap: Snapshot, pos: Position)
    requires Timed(snaps, pos)
    ensures Timed(snaps + [snap], pos)
  {
    var k :| 0 < k < |snaps| && snaps[k - 1].time == pos.signalTime && snaps[k].time == pos.entryTime;
    var more := snaps + [snap];
    assert more[k - 1].time == pos.signalTime && more[k].time == pos.entryTime;
  }

  lemma OriginTimed(p: Params, snaps: seq<Snapshot>, st: State, snap: Snapshot, pos: Position)
    requires AllTimed(snaps, st) && Protocol(p, st, LastTime(snaps)) && LotOrigin(st, pos, snap)
    requires snaps == [] ==> st == Start(p)
    ensures Timed(snaps + [snap], pos)
  {
    if pos.symbol in st.positions.items && SameLot(st.positions.items[pos.symbol], pos) {
      TimedExtends(snaps, snap, st.positions.items[pos.symbol]);
      var more := snaps + [snap];
      var k :| 0 < k < |more| && more[k - 1].time == pos.signalTime && more[k].time == pos.entryTime;
    } else {
      var more, k := snaps + [snap], |snaps|;
      assert more[k - 1].time == pos.signalTime && more[k].time == pos.entryTime;
    }
  }

  /** In every replay, the signal of every lot, open or closed, was formed on the bar immediately before
      the one it was entered on. */
  lemma {:induction false} RunTimed(p: Params, snaps: seq<Snapshot>)
    ensures AllTimed(snaps, Run(p, snaps))
  {
    hide BarStep;
    hide Timed;
    hide Books;
    hide Protocol;
    hide LotOrigin;
    if snaps != [] {
      var n := |snaps| - 1;
      var init := snaps[..n];
      assert snaps == init + [snaps[n]];
      RunTimed(p, init);
      RunSettled(p, init);
      var a, b := Run(p, init), Run(p, snaps);
      BarLotsHold(p, a, snaps[n], LastTime(init));
      forall s | s in b.positions.items ensures Timed(snaps, b.positions.items[s]) {
        OriginTimed(p, init, a, snaps[n], b.positions.items[s]);
      }
      forall i | 0 <= i < |b.trades| ensures Timed(snaps, b.trades[i].lot) {
        if b.trades[i] in a.trades {
          var j :| 0 <= j < |a.trades| && a.trades[j] == b.trades[i];
          TimedExtends(init, snaps[n], a.trades[j].lot);
        } else {
          OriginTimed(p, init, a, snaps[n], b.trades[i].lot);
        }
      }
    }
  }

  /** The same of every trade in the final report. */
  lemma ReplayTimed(p: Params, snaps: seq<Snapshot>, i: nat)
    requires snaps != [] && i < |Backtest(p, snaps).trades|
    ensures Timed(snaps, Backtest(p, snaps).trades[i].lot)
  {
    hide Run;
    hide Liquidated;
    hide Books;
    RunTimed(p, snaps);
    RunSettled(p, snaps);
    var st := Run(p, snaps);
    LiquidateEffect(p, st, snaps[|snaps| - 1]);
    var tr := Backtest(p, snaps).trades[i];
    if tr in st.trades {
      var j :| 0 <= j < |st.trades| && st.trades[j] == tr;
    } else {
      var k :| 0 < k < |snaps| && snaps[k - 1].time == st.positions.items[tr.lot.symbol].signalTime
               && snaps[k].time == st.positions.items[tr.lot.symbol].entryTime;
    }
  }

  // ---------------------------------------------------------------- stops over a run

  lemma TimedNotLater(snaps: seq<Snapshot>, pos: Position)
    requires Increasing(snaps) && snaps != [] && Timed(snaps, pos)
    ensures pos.signalTime < pos.entryTime <= LastTime(snaps)
  {
  }

  lemma EnteredBefore(p: Params, snaps: seq<Snapshot>, k: nat, j: nat, s: Symbol)
    requires Increasing(snaps) && k <= j < |snaps| && s in Run(p, snaps[..k]).positions.items
    ensures Run(p, snaps[..k]).positions.items[s].entryTime < snaps[j].time
  {
    hide Run;
    hide Timed;
    RunTimed(p, snaps[..k]);
    RunStartsEmpty(p, snaps, k, s);
    TimedNotLater(snaps[..k], Run(p, snaps[..k]).positions.items[s]);
    assert snaps[..k][k - 1] == snaps[k - 1];
  }

  lemma RunSnoc(p: Params, snaps: seq<Snapshot>, j: nat)
    requires 0 < j <= |snaps|
    ensures Run(p, snaps[..j]) == BarStep(p, Run(p, snaps[..j - 1]), snaps[j - 1])
  {
    hide BarStep;
    assert snaps[..j][..j - 1] == snaps[..j - 1];
  }

  /** A lot's stop never falls, from any bar of a replay to any later one. */
  lemma {:induction false} StopsNeverFall(p: Params, snaps: seq<Snapshot>, k: nat, j: nat, s: Symbol)
    requires Increasing(snaps) && k <= j <= |snaps|
    requires s in Run(p, snaps[..k]).positions.items && s in Run(p, snaps[..j]).positions.items
    requires Run(p, snaps[..k]).positions.items[s].entryTime == Run(p, snaps[..j]).positions.items[s].entryTime
    ensures Run(p, snaps[..k]).positions.items[s].stop <= Run(p, snaps[..j]).positions.items[s].stop
    decreases j
  {
    hide BarStep;
    hide Run;
    hide Settled;
    hide Increasing;
    if k < j {
      var init, snap := snaps[..j - 1], snaps[j - 1];
      RunSnoc(p, snaps, j);
      RunSettled(p, init);
      BarLotsHold(p, Run(p, init), snap, LastTime(init));
      EnteredBefore(p, snaps, k, j - 1, s);
      StopsNeverFall(p, snaps, k, j - 1, s);
    }
  }

  lemma RunStartsEmpty(p: Params, snaps: seq<Snapshot>, k: nat, s: Symbol)
    requires k <= |snaps| && s in Run(p, snaps[..k]).positions.items
    ensures k > 0
  {
    assert |snaps[..k]| == k;
  }

  // ---------------------------------------------------------------- the correlation test

  /** The bar on which a live symbol was proposed. */
  ghost function SignalOf(st: State, s: Symbol): Time
    requires Live(st, s)
  {
    if s in st.positions.items then st.positions.items[s].signalTime else st.pending.items[s].signalTime
  }

  /** x was proposed after y: on a later bar, or later within the same bar's symbol order. */
  ghost predicate ProposedAfter(st: State, x: Symbol, y: Symbol)
    requires Live(st, x) && Live(st, y)
  {
    SignalOf(st, y) < SignalOf(st, x) || (SignalOf(st, y) == SignalOf(st, x) && y < x)
  }

  /** The correlation test of x against y on what was known before x's signal bar. */
  ghost predicate Passed(p: Params, st: State, x: Symbol, y: Symbol)
    requires Live(st, x)
  {
    p.pairOk(Before(HistoryOf(st, x), SignalOf(st, x)), Before(HistoryOf(st, y), SignalOf(st, x)))
  }

  ghost predicate AllPairsPassed(p: Params, st: State) {
    && (forall x :: Live(st, x) ==> HistoryOf(st, x) != [])
    && forall x, y :: x != y && Live(st, x) && Live(st, y) && ProposedAfter(st, x, y) ==> Passed(p, st, x, y)
  }

  /** Fewer live symbols, with the signal bars and histories they had. */
  ghost predicate LiveFrom(a: State, b: State) {
    && a.histories == b.histories
    && forall s :: Live(b, s) ==> Live(a, s) && SignalOf(a, s) == SignalOf(b, s)
  }

  lemma PairsTransfer(p: Params, a: State, b: State)
    requires AllPairsPassed(p, a) && LiveFrom(a, b)
    ensures AllPairsPassed(p, b)
  {
    hide HistoryOf;
    hide Before;
    hide Live;
    hide SignalOf;
    forall x | Live(b, x) ensures HistoryOf(b, x) != [] {
      SameHistories(a, b, x);
    }
    forall x, y | x != y && Live(b, x) && Live(b, y) && ProposedAfter(b, x, y) ensures Passed(p, b, x, y) {
      assert ProposedAfter(a, x, y);
      assert Passed(p, a, x, y);
      SameHistories(a, b, x);
      SameHistories(a, b, y);
    }
  }

  lemma SameHistories(a: State, b: State, s: Symbol)
    requires a.histories == b.histories
    ensures HistoryOf(a, s) == HistoryOf(b, s)
  {
  }

  lemma OpenedLiveFrom(p: Params, a: State, b: State, snap: Snapshot, before: Time)
    requires Protocol(p, a, before) && Opened(p, a, b, snap)
    ensures LiveFrom(a, b)
  {
    hide Books;
    hide TradesFrom;
    forall s | Live(b, s) ensures Live(a, s) && SignalOf(a, s) == SignalOf(b, s) {
      assert s in b.positions.items;
      assert OpenedFrom(a, b, s, snap);
    }
  }

  // ---------------------------------------------------------------- through the signal phase

  lemma {:induction false} BeforeSnoc(h: seq<Point>, pt: Point, t: Time)
    requires pt.time >= t
    ensures Before(h + [pt], t) == Before(h, t)
  {
    assert (h + [pt])[..|h|] == h;
  }

  lemma RecordingInvisible(st: State, s: Symbol, bar: Bar, now: Time, k: Symbol, t: Time)
    requires t <= now
    ensures Before(HistoryOf(Recorded(st, s, bar, now), k), t) == Before(HistoryOf(st, k), t)
  {
    hide Before;
    if k == s {
      BeforeSnoc(HistoryOf(st, s), Point(now, bar.close, bar.volume, bar.low, bar.flow), t);
    }
  }

  /** While the signals of a bar are formed: entries pending so far are of this bar and of smaller symbols. */
  ghost predicate SignalOrder(st: State, now: Time, bound: Symbol) {
    && (forall s :: s in st.positions.items ==> st.positions.items[s].signalTime < now)
    && (forall s :: s in st.pending.items && st.pending.items[s].Entry? ==>
      st.pending.items[s].signalTime == now && s < bound)
  }

  lemma RecordedKeepsPairs(p: Params, st: State, s: Symbol, bar: Bar, now: Time, bound: Symbol)
    requires AllPairsPassed(p, st) && SignalOrder(st, now, bound)
    ensures AllPairsPassed(p, Recorded(st, s, bar, now))
  {
    hide Before;
    var r := Recorded(st, s, bar, now);
    forall x | Live(r, x) ensures HistoryOf(r, x) != [] {
      assert Live(st, x);
    }
    forall x, y | x != y && Live(r, x) && Live(r, y) && ProposedAfter(r, x, y) ensures Passed(p, r, x, y) {
      assert ProposedAfter(st, x, y) && Passed(p, st, x, y);
      RecordingInvisible(st, s, bar, now, x, SignalOf(st, x));
      RecordingInvisible(st, s, bar, now, y, SignalOf(st, x));
    }
  }

  lemma RecordedHasHistory(st: State, s: Symbol, bar: Bar, now: Time)
    ensures HistoryOf(Recorded(st, s, bar, now), s) != []
  {
  }

  lemma SignalledKeepsPairs(p: Params, st: State, s: Symbol, bar: Bar, now: Time)
    requires AllPairsPassed(p, st) && SignalOrder(st, now, s)
    ensures AllPairsPassed(p, Signalled(p, st, s, bar, now))
    ensures SignalOrder(Signalled(p, st, s, bar, now), now, s + 1)
  {
    hide HistoryOf;
    hide Before;
    hide StopLevel;
    RecordedKeepsPairs(p, st, s, bar, now, s);
    var r := Recorded(st, s, bar, now);
    var b := Signalled(p, st, s, bar, now);
    if Signals(p, r, s, bar, now) {
      forall x | Live(b, x) ensures HistoryOf(b, x) != [] {
        SameHistories(r, b, x);
        RecordedHasHistory(st, s, bar, now);
      }
      forall x, y | x != y && Live(b, x) && Live(b, y) && ProposedAfter(b, x, y) ensures Passed(p, b, x, y) {
        SameHistories(r, b, x);
        SameHistories(r, b, y);
        if x == s {
          assert Live(r, y) && y in r.positions.items.Keys + r.pending.items.Keys;
        } else {
          assert y != s;
          assert ProposedAfter(r, x, y) && Passed(p, r, x, y);
        }
      }
    }
  }

  lemma {:induction false} SignalPhaseKeepsPairs(p: Params, st: State, snap: Snapshot, n: nat)
    requires n <= |snap.order| && AllPairsPassed(p, st)
    requires forall k: Symbol :: SignalOrder(st, snap.time, k)
    ensures AllPairsPassed(p, Fold(SignalOne(p, snap), st, snap.order[..n]))
    ensures n < |snap.order| ==> SignalOrder(Fold(SignalOne(p, snap), st, snap.order[..n]), snap.time, snap.order[n])
  {
    hide Fold;
    hide AllPairsPassed;
    hide Signalled;
    FoldEnds(SignalOne(p, snap), st, snap.order);
    if n > 0 {
      SignalPhaseKeepsPairs(p, st, snap, n - 1);
      var x := Fold(SignalOne(p, snap), st, snap.order[..n - 1]);
      var s := snap.order[n - 1];
      assert s in snap.bars;
      SignalledKeepsPairs(p, x, s, snap.bars[s], snap.time);
      FoldStep(SignalOne(p, snap), st, snap.order, n - 1);
    }
  }

  /** Before the signals of a bar, nothing but open lots is live. */
  lemma ClosePhaseKeepsPairs(p: Params, st: State, snap: Snapshot)
    requires Books(p, st) && OnlyWaitingExits(st, snap) && AllPairsPassed(p, st)
    requires forall s :: s in st.positions.items ==> st.positions.items[s].signalTime < snap.time
    ensures AllPairsPassed(p, ClosePhase(p, st, snap))
  {
    hide Fold;
    hide Books;
    hide LockdownPhase;
    hide StopOne;
    hide RatchetOne;
    hide ProposeAddOne;
    hide SignalOne;
    hide AllPairsPassed;
    var ks := st.positions.order;
    var s4 := Fold(StopOne(p, snap), st, ks);
    StopEffect(p, st, snap);
    StopSkipsFold(p, st, snap, ks, |ks|);
    FoldEnds(StopOne(p, snap), st, ks);
    var s5 := LockdownPhase(p, s4, snap);
    LockdownSettles(p, s4, snap);
    SameBooksKeep(p, s4, s5);
    var s6 := Fold(RatchetOne(p, snap), s5, s5.positions.order);
    RatchetFold(p, s5, snap, s5.positions.order, |s5.positions.order|);
    FoldEnds(RatchetOne(p, snap), s5, s5.positions.order);
    var s7 := Fold(ProposeAddOne(p, snap), s6, s6.positions.order);
    AddsFold(p, s6, snap, s6.positions.order, |s6.positions.order|);
    FoldEnds(ProposeAddOne(p, snap), s6, s6.positions.order);
    assert forall s :: s in s7.pending.items ==> !s7.pending.items[s].Entry?;
    assert LiveFrom(st, s7);
    PairsTransfer(p, st, s7);
    SignalPhaseKeepsPairs(p, s7, snap, |snap.order|);
    FoldEnds(SignalOne(p, snap), s7, snap.order);
  }

  ghost predicate SignalsBefore(st: State, t: Time) {
    forall s :: s in st.positions.items ==> st.positions.items[s].signalTime < t
  }

  /** In every reachable state any two symbols that are open or proposed for entry passed the correlation
      test when the later of the two was proposed, two proposals of one bar included. */
  lemma {:induction false} PairsPassed(p: Params, snaps: seq<Snapshot>)
    requires Increasing(snaps)
    ensures AllPairsPassed(p, Run(p, snaps))
  {
    hide OpenPhase;
    hide ClosePhase;
    hide AllPairsPassed;
    hide Opened;
    hide Books;
    hide OnlyWaitingExits;
    if snaps == [] {
      StartPairs(p);
    } else {
      var n := |snaps| - 1;
      var init, snap := snaps[..n], snaps[n];
      PairsPassed(p, init);
      PairsPassedAtOpen(p, init, snap);
      var st := Run(p, init);
      var mid := OpenPhase(p, st, snap);
      RunSettled(p, init);
      OpenPhaseEffect(p, st, snap);
      OpenedLeavesWaitingExits(p, st, mid, snap, LastTime(init));
      ClosePhaseKeepsPairs(p, mid, snap);
    }
  }

  lemma StartPairs(p: Params)
    ensures AllPairsPassed(p, Start(p))
  {
    assert forall s :: !Live(Start(p), s);
  }

  /** The same between the opening of a bar and its close. */
  lemma PairsPassedAtOpen(p: Params, snaps: seq<Snapshot>, snap: Snapshot)
    requires Increasing(snaps + [snap]) && AllPairsPassed(p, Run(p, snaps))
    ensures AllPairsPassed(p, OpenPhase(p, Run(p, snaps), snap))
    ensures SignalsBefore(OpenPhase(p, Run(p, snaps), snap), snap.time)
  {
    hide OpenPhase;
    hide Run;
    hide AllPairsPassed;
    hide Books;
    hide Timed;
    hide TradesFrom;
    var st := Run(p, snaps);
    RunSettled(p, snaps);
    RunTimed(p, snaps);
    OpenPhaseEffect(p, st, snap);
    var mid := OpenPhase(p, st, snap);
    OpenedLiveFrom(p, st, mid, snap, LastTime(snaps));
    PairsTransfer(p, st, mid);
    if snaps == [] {
      EmptyRun(p, snaps);
    } else {
      assert (snaps + [snap])[|snaps| - 1] == snaps[|snaps| - 1] && (snaps + [snap])[|snaps|] == snap;
      assert LastTime(snaps) < snap.time;
      forall s | s in mid.positions.items ensures mid.positions.items[s].signalTime < snap.time {
        assert OpenedFrom(st, mid, s, snap);
        if s in st.positions.items {
          assert Increasing(snaps) by { IncreasingPrefix(snaps, snap); }
          TimedNotLater(snaps, st.positions.items[s]);
        }
      }
    }
  }

  /** Any two positions held at any moment of any replay, right after an opening or after a whole bar, passed
      the test when the later of them was proposed. */
  lemma HeldPairsPassed(p: Params, snaps: seq<Snapshot>, snap: Snapshot)
    requires Increasing(snaps + [snap])
    ensures AllPairsPassed(p, Run(p, snaps)) && AllPairsPassed(p, OpenPhase(p, Run(p, snaps), snap))
  {
    hide AllPairsPassed;
    hide OpenPhase;
    IncreasingPrefix(snaps, snap);
    PairsPassed(p, snaps);
    PairsPassedAtOpen(p, snaps, snap);
  }

  lemma IncreasingPrefix(snaps: seq<Snapshot>, snap: Snapshot)
    requires Increasing(snaps + [snap])
    ensures Increasing(snaps)
  {
    forall i, j | 0 <= i < j < |snaps| ensures snaps[i].time < snaps[j].time {
      assert (snaps + [snap])[i] == snaps[i] && (snaps + [snap])[j] == snaps[j];
    }
  }

  lemma EmptyRun(p: Params, snaps: seq<Snapshot>)
    requires snaps == []
    ensures Run(p, snaps) == Start(p)
  {
  }
}
