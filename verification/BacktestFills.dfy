/** At what price, and by which record, positions leave a replay. */
module BacktestFills {
  import opened OrderedDict
  import opened BacktestModel
  import opened BacktestBooks
  import opened BacktestProtocol
  import opened BacktestTheorems
  import opened BacktestSignals

  // ---------------------------------------------------------------- exits at the open

  /** The trade that closes a position at the open of a bar: a gap stop, or else the lockdown exit. */
  ghost function OpenClosing(p: Params, pos: Position, snap: Snapshot, s: Symbol): Trade
    requires s in snap.bars
  {
    var open := snap.bars[s].open;
    Trade(pos, snap.time, ExitPrice(p, open), Proceeds(p, pos, open) - Cost(p, pos),
          if open <= pos.stop then GapStop else SidelineLockdown)
  }

  ghost predicate Holds(st: State, s: Symbol, pos: Position) {
    s in st.positions.items && st.positions.items[s] == pos
  }

  /** The position is still there, or its closing trade is. */
  ghost predicate Leaving(p: Params, st: State, s: Symbol, pos: Position, snap: Snapshot)
    requires s in snap.bars
  {
    Holds(st, s, pos) || OpenClosing(p, pos, snap, s) in st.trades
  }

  ghost predicate GapHit(pos: Position, snap: Snapshot, s: Symbol)
    requires s in snap.bars
  {
    snap.bars[s].open <= pos.stop
  }

  lemma GapOneLeaves(p: Params, x: State, snap: Snapshot, k: Symbol, s: Symbol, pos: Position)
    requires s in snap.bars && Leaving(p, x, s, pos, snap) && (!GapHit(pos, snap, s) ==> Holds(x, s, pos))
    ensures var r := GapStopOne(p, snap)(x, k);
            && Leaving(p, r, s, pos, snap) && (!GapHit(pos, snap, s) ==> Holds(r, s, pos))
            && (k == s && GapHit(pos, snap, s) ==> OpenClosing(p, pos, snap, s) in r.trades)
            && x.trades <= r.trades
  {
    hide Proceeds;
    hide ExitPrice;
    hide Cost;
    var r := GapStopOne(p, snap)(x, k);
    assert x.trades <= r.trades;
    if k == s && Holds(x, s, pos) && GapHit(pos, snap, s) {
      assert r.trades[|x.trades|] == OpenClosing(p, pos, snap, s);
    }
  }

  lemma {:induction false} GapFoldLeaves(p: Params, st: State, snap: Snapshot,
                                         ks: seq<Symbol>, n: nat, s: Symbol, pos: Position)
    requires s in snap.bars && Holds(st, s, pos) && n <= |ks|
    ensures var r := Fold(GapStopOne(p, snap), st, ks[..n]);
            && Leaving(p, r, s, pos, snap) && (!GapHit(pos, snap, s) ==> Holds(r, s, pos))
            && (GapHit(pos, snap, s) && s in ks[..n] ==> OpenClosing(p, pos, snap, s) in r.trades)
  {
    hide Fold;
    hide GapStopOne;
    hide OpenClosing;
    hide Holds;
    hide GapHit;
    FoldEnds(GapStopOne(p, snap), st, ks);
    if n > 0 {
      GapFoldLeaves(p, st, snap, ks, n - 1, s, pos);
      GapOneLeaves(p, Fold(GapStopOne(p, snap), st, ks[..n - 1]), snap, ks[n - 1], s, pos);
      FoldStep(GapStopOne(p, snap), st, ks, n - 1);
      assert ks[..n] == ks[..n - 1] + [ks[n - 1]];
    }
  }

  lemma FillOneLeaves(p: Params, x: State, snap: Snapshot, item: (Symbol, Proposal), s: Symbol, pos: Position)
    requires s in snap.bars && Leaving(p, x, s, pos, snap)
               && (GapHit(pos, snap, s) ==> OpenClosing(p, pos, snap, s) in x.trades)
    requires item.0 == s ==> item.1.Exit?
    ensures var r := FillOne(p, snap)(x, item);
            && Leaving(p, r, s, pos, snap) && (GapHit(pos, snap, s) ==> OpenClosing(p, pos, snap, s) in r.trades)
            && (item.0 == s ==> OpenClosing(p, pos, snap, s) in r.trades)
  {
    hide FillEntry;
    hide FillAdd;
    hide Proceeds;
    hide ExitPrice;
    hide Cost;
    FillOneTouches(p, x, item, snap);
    var r := FillOne(p, snap)(x, item);
    assert x.trades <= r.trades;
    if item.0 == s {
      if OpenClosing(p, pos, snap, s) !in x.trades {
        assert r.trades[|x.trades|] == OpenClosing(p, pos, snap, s);
      }
    } else {
      assert Untouched(x, r, s);
    }
  }

  lemma {:induction false} FillFoldLeaves(p: Params, st: State, snap: Snapshot,
                                          items: seq<(Symbol, Proposal)>, n: nat, s: Symbol, pos: Position)
    requires s in snap.bars && Leaving(p, st, s, pos, snap)
               && (GapHit(pos, snap, s) ==> OpenClosing(p, pos, snap, s) in st.trades)
    requires n <= |items| && forall j :: 0 <= j < |items| && items[j].0 == s ==> items[j].1.Exit?
    ensures var r := Fold(FillOne(p, snap), st, items[..n]);
            && Leaving(p, r, s, pos, snap) && (GapHit(pos, snap, s) ==> OpenClosing(p, pos, snap, s) in r.trades)
            && ((exists j :: 0 <= j < n && items[j].0 == s) ==> OpenClosing(p, pos, snap, s) in r.trades)
  {
    hide Fold;
    hide FillOne;
    hide OpenClosing;
    hide Holds;
    hide GapHit;
    FoldEnds(FillOne(p, snap), st, items);
    if n > 0 {
      FillFoldLeaves(p, st, snap, items, n - 1, s, pos);
      var x := Fold(FillOne(p, snap), st, items[..n - 1]);
      FillOneLeaves(p, x, snap, items[n - 1], s, pos);
      FoldStep(FillOne(p, snap), st, items, n - 1);
      KeepsTrade(p, x, snap, items[n - 1], OpenClosing(p, pos, snap, s));
    }
  }

  lemma KeepsTrade(p: Params, x: State, snap: Snapshot, item: (Symbol, Proposal), tr: Trade)
    ensures tr in x.trades ==> tr in FillOne(p, snap)(x, item).trades
  {
    FillOneTouches(p, x, item, snap);
    hide FillOne;
  }

  /** A pending exit that can trade leaves its trade, at the open of the bar. */
  lemma ExitRecorded(p: Params, st: State, snap: Snapshot, s: Symbol)
    requires Books(p, st) && ExitPending(st, s) && s in snap.bars
    ensures OpenClosing(p, st.positions.items[s], snap, s) in OpenPhase(p, st, snap).trades
  {
    hide Fold;
    hide Books;
    hide FillOne;
    hide GapStopOne;
    hide ExpireOne;
    hide Entries;
    hide OpenClosing;
    var pos := st.positions.items[s];
    var s1 := Fold(ExpireOne(snap), st, st.pending.order);
    ExpireEffect(st, snap);
    SameBooksKeep(p, st, s1);
    var ks := s1.positions.order;
    var s2 := Fold(GapStopOne(p, snap), s1, ks);
    assert Holds(s1, s, pos);
    GapFoldLeaves(p, s1, snap, ks, |ks|, s, pos);
    FoldEnds(GapStopOne(p, snap), s1, ks);
    GapStopEffect(p, s1, snap);
    assert ks[..|ks|] == ks && s in ks;
    var items := Entries(s2.pending);
    EntriesDistinct(s2.pending);
    FillFoldLeaves(p, s2, snap, items, |items|, s, pos);
    FoldEnds(FillOne(p, snap), s2, items);
  }

  /** An exit pending after k bars is executed at the open of the first later bar in which the symbol trades: the
      position is gone and its trade at that open is recorded. Lockdown puts an exit on every held symbol. */
  lemma ExitAtFirstTrade(p: Params, snaps: seq<Snapshot>, k: nat, j: nat, s: Symbol)
    requires k <= j < |snaps| && ExitPending(Run(p, snaps[..k]), s)
    requires s in snaps[j].bars && forall i :: k <= i < j ==> s !in snaps[i].bars
    ensures var before, after := Run(p, snaps[..j]), OpenPhase(p, Run(p, snaps[..j]), snaps[j]);
            && s in before.positions.items && s !in after.positions.items
            && OpenClosing(p, before.positions.items[s], snaps[j], s) in after.trades
  {
    hide OpenPhase;
    hide Books;
    hide Run;
    hide OpenClosing;
    ExitWaits(p, snaps, k, j, s);
    RunSettled(p, snaps[..j]);
    SettledExecutable(p, Run(p, snaps[..j]), LastTime(snaps[..j]));
    OpenPhaseEffect(p, Run(p, snaps[..j]), snaps[j]);
    ExitRecorded(p, Run(p, snaps[..j]), snaps[j], s);
  }

  // ---------------------------------------------------------------- histories and the final price

  /** What is recorded of a symbol in a sequence of bars. */
  ghost function Points(snaps: seq<Snapshot>, s: Symbol): seq<Point> {
    if snaps == [] then []
    else Points(snaps[..|snaps| - 1], s) + NewPoint(snaps[|snaps| - 1], s)
  }

  ghost function NewPoint(snap: Snapshot, s: Symbol): seq<Point> {
    if s in snap.bars then
      var bar := snap.bars[s];
      [Point(snap.time, bar.close, bar.volume, bar.low, bar.flow)]
    else []
  }

  lemma {:induction false} SignalFoldRecords(p: Params, st: State, snap: Snapshot, n: nat, s: Symbol)
    requires n <= |snap.order|
    ensures HistoryOf(Fold(SignalOne(p, snap), st, snap.order[..n]), s)
         == HistoryOf(st, s) + if s in snap.order[..n] then NewPoint(snap, s) else []
  {
    hide Fold;
    hide Signals;
    hide StopLevel;
    FoldEnds(SignalOne(p, snap), st, snap.order);
    if n > 0 {
      SignalFoldRecords(p, st, snap, n - 1, s);
      FoldStep(SignalOne(p, snap), st, snap.order, n - 1);
      assert snap.order[..n] == snap.order[..n - 1] + [snap.order[n - 1]];
      assert snap.order[n - 1] in snap.order;
      if snap.order[n - 1] == s {
        assert s !in snap.order[..n - 1];
      }
    }
  }

  lemma ClosePhaseRecords(p: Params, st: State, snap: Snapshot, s: Symbol)
    requires Books(p, st) && OnlyWaitingExits(st, snap)
    ensures HistoryOf(ClosePhase(p, st, snap), s) == HistoryOf(st, s) + NewPoint(snap, s)
  {
    hide Fold;
    hide Books;
    hide LockdownPhase;
    hide StopOne;
    hide RatchetOne;
    hide ProposeAddOne;
    hide SignalOne;
    hide NewPoint;
    var ks := st.positions.order;
    var s4 := Fold(StopOne(p, snap), st, ks);
    StopEffect(p, st, snap);
    var s5 := LockdownPhase(p, s4, snap);
    LockdownEffect(p, s4, snap);
    SameBooksKeep(p, s4, s5);
    var s6 := Fold(RatchetOne(p, snap), s5, s5.positions.order);
    RatchetFold(p, s5, snap, s5.positions.order, |s5.positions.order|);
    FoldEnds(RatchetOne(p, snap), s5, s5.positions.order);
    var s7 := Fold(ProposeAddOne(p, snap), s6, s6.positions.order);
    AddsFold(p, s6, snap, s6.positions.order, |s6.positions.order|);
    FoldEnds(ProposeAddOne(p, snap), s6, s6.positions.order);
    SignalFoldRecords(p, s7, snap, |snap.order|, s);
    FoldEnds(SignalOne(p, snap), s7, snap.order);
    assert snap.order[..|snap.order|] == snap.order;
    RecordedIfTrading(snap, s);
  }

  lemma RecordedIfTrading(snap: Snapshot, s: Symbol)
    ensures s !in snap.order ==> NewPoint(snap, s) == []
  {
  }

  lemma BarRecords(p: Params, st: State, snap: Snapshot, before: Time, s: Symbol)
    requires Settled(p, st, before)
    ensures HistoryOf(BarStep(p, st, snap), s) == HistoryOf(st, s) + NewPoint(snap, s)
  {
    hide OpenPhase;
    hide ClosePhase;
    hide Books;
    hide OnlyWaitingExits;
    hide NewPoint;
    var mid := OpenPhase(p, st, snap);
    SettledExecutable(p, st, before);
    OpenPhaseEffect(p, st, snap);
    OpenedLeavesWaitingExits(p, st, mid, snap, before);
    hide Protocol;
    ClosePhaseRecords(p, mid, snap, s);
    SameHistories(st, mid, s);
  }

  /** The history of a symbol is exactly the bars in which it traded. */
  lemma {:induction false} HistoryIsPoints(p: Params, snaps: seq<Snapshot>, s: Symbol)
    ensures HistoryOf(Run(p, snaps), s) == Points(snaps, s)
  {
    if snaps != [] {
      hide BarStep;
      hide Settled;
      hide NewPoint;
      hide HistoryOf;
      var init := snaps[..|snaps| - 1];
      HistoryIsPoints(p, init, s);
      RunSettled(p, init);
      BarRecords(p, Run(p, init), snaps[|snaps| - 1], LastTime(init), s);
    }
  }

  lemma {:induction false} LastPoint(snaps: seq<Snapshot>, s: Symbol) returns (i: nat)
    requires Points(snaps, s) != []
    ensures i < |snaps| && s in snaps[i].bars && (forall j :: i < j < |snaps| ==> s !in snaps[j].bars)
    ensures Points(snaps, s)[|Points(snaps, s)| - 1].close == snaps[i].bars[s].close
  {
    var n := |snaps| - 1;
    if s in snaps[n].bars {
      i := n;
    } else {
      i := LastPoint(snaps[..n], s);
    }
  }
}
