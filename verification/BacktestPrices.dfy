/** At what price every trade of a replay is recorded, and which stops a bar can trigger. */
module BacktestPrices {
  import opened Arithmetic
  import opened OrderedDict
  import opened BacktestModel
  import opened BacktestBooks
  import opened BacktestProtocol
  import opened BacktestTheorems
  import opened BacktestSignals
  import opened BacktestFills

  // ---------------------------------------------------------------- stops and the open of a bar

  /** A stop below the open of the bar or, for a lot entered on this very bar, below its fill price. */
  ghost predicate BelowFill(p: Params, pos: Position, bar: Bar, t: Time)
    requires BarOk(bar)
  {
    pos.stop < bar.open || (pos.entryTime == t && pos.stop < OpenPrice(p, bar))
  }

  /** A position that outlived the gap stops. */
  ghost predicate AboveGap(st: State, snap: Snapshot, s: Symbol) {
    s in st.positions.items && s in snap.bars ==> st.positions.items[s].stop < snap.bars[s].open
  }

  ghost predicate StopsBelow(p: Params, st: State, snap: Snapshot, s: Symbol) {
    s in st.positions.items && s in snap.bars ==> BelowFill(p, st.positions.items[s], snap.bars[s], snap.time)
  }

  lemma {:induction false} GapFoldBelow(p: Params, st: State, snap: Snapshot, ks: seq<Symbol>, n: nat)
    requires n <= |ks|
    ensures var r := Fold(GapStopOne(p, snap), st, ks[..n]);
            && (forall s :: s in r.positions.items ==>
                  s in st.positions.items && r.positions.items[s] == st.positions.items[s])
            && (forall i :: 0 <= i < n ==> AboveGap(r, snap, ks[i]))
  {
    hide Fold;
    hide GapStopOne;
    FoldEnds(GapStopOne(p, snap), st, ks);
    if n > 0 {
      GapFoldBelow(p, st, snap, ks, n - 1);
      FoldStep(GapStopOne(p, snap), st, ks, n - 1);
      GapOneBelow(p, Fold(GapStopOne(p, snap), st, ks[..n - 1]), snap, ks[n - 1]);
    }
  }

  lemma GapOneBelow(p: Params, x: State, snap: Snapshot, s: Symbol)
    ensures var r := GapStopOne(p, snap)(x, s);
            && (forall k :: k in r.positions.items ==>
                  k in x.positions.items && r.positions.items[k] == x.positions.items[k])
            && AboveGap(r, snap, s)
  {
    hide Proceeds;
    hide ExitPrice;
    hide Cost;
  }

  lemma GapBelow(p: Params, st: State, snap: Snapshot)
    ensures forall s :: AboveGap(Fold(GapStopOne(p, snap), st, st.positions.order), snap, s)
  {
    hide Fold;
    hide GapStopOne;
    var ks := st.positions.order;
    var r := Fold(GapStopOne(p, snap), st, ks);
    GapFoldBelow(p, st, snap, ks, |ks|);
    FoldEnds(GapStopOne(p, snap), st, ks);
    forall s ensures AboveGap(r, snap, s) {
      if s in r.positions.items {
        assert s in ks;
        var i :| 0 <= i < |ks| && ks[i] == s;
      }
    }
  }

  /** Filling one proposal keeps its own stop below; an addition does not move the stop. */
  lemma FillOneBelow(p: Params, x: State, snap: Snapshot, item: (Symbol, Proposal))
    requires StopsBelow(p, x, snap, item.0)
    requires item.1.Add? && item.0 in x.positions.items ==> item.1.trailStop <= x.positions.items[item.0].stop
    ensures StopsBelow(p, FillOne(p, snap)(x, item), snap, item.0)
  {
    hide FillEntry;
    hide FillAdd;
    hide Enlarged;
    hide EntryNotional;
    hide AddNotional;
    hide RoomOf;
    hide WithFee;
    hide OpenPrice;
    hide Proceeds;
    var s := item.0;
    if s in snap.bars {
      match item.1 {
      case Exit(_) =>
      case Entry(signalTime, stop) => FillEntryIs(p, x, s, signalTime, stop, snap);
      case Add(_, trailStop) =>
        FillAddIs(p, x, s, trailStop, snap);
        if AddFills(p, x, s, trailStop, snap) {
          var pos := x.positions.items[s];
          EnlargedLotKept(pos, AddNotional(p, RoomOf(p, x, snap), pos, OpenPrice(p, snap.bars[s]),
            Max(pos.stop, trailStop)),
                          OpenPrice(p, snap.bars[s]), Max(pos.stop, trailStop));
        }
      }
    }
  }

  ghost predicate AddsAtStop(st: State, items: seq<(Symbol, Proposal)>) {
    forall j :: 0 <= j < |items| && items[j].1.Add? && items[j].0 in st.positions.items ==>
      items[j].1.trailStop <= st.positions.items[items[j].0].stop
  }

  lemma {:induction false} FillFoldBelow(p: Params, st: State, snap: Snapshot, items: seq<(Symbol, Proposal)>, n: nat)
    requires n <= |items| && DistinctKeys(items) && AddsAtStop(st, items) && forall s :: StopsBelow(p, st, snap, s)
    ensures var r := Fold(FillOne(p, snap), st, items[..n]);
            && (forall s :: StopsBelow(p, r, snap, s))
            && (forall k :: (forall j :: 0 <= j < n ==> items[j].0 != k) ==> Untouched(st, r, k))
  {
    hide Fold;
    hide FillOne;
    hide BelowFill;
    FoldEnds(FillOne(p, snap), st, items);
    if n > 0 {
      FillFoldBelow(p, st, snap, items, n - 1);
      var x := Fold(FillOne(p, snap), st, items[..n - 1]);
      var item := items[n - 1];
      FoldStep(FillOne(p, snap), st, items, n - 1);
      assert forall j :: 0 <= j < n - 1 ==> items[j].0 != item.0;
      assert Untouched(st, x, item.0);
      FillOneBelow(p, x, snap, item);
      FillOneTouches(p, x, item, snap);
      var r := FillOne(p, snap)(x, item);
      forall s ensures StopsBelow(p, r, snap, s) {
        assert StopsBelow(p, x, snap, s);
        assert s != item.0 ==> Untouched(x, r, s);
      }
      forall k | forall j :: 0 <= j < n ==> items[j].0 != k ensures Untouched(st, r, k) {
        assert item.0 != k;
        assert Untouched(st, x, k) && Untouched(x, r, k);
      }
    }
  }

  lemma GapLeavesBelow(p: Params, st: State, snap: Snapshot)
    requires forall s :: AboveGap(st, snap, s)
    ensures forall s :: StopsBelow(p, st, snap, s)
  {
    forall s ensures StopsBelow(p, st, snap, s) {
      assert AboveGap(st, snap, s);
    }
  }

  lemma OpenPhaseBelow(p: Params, st: State, snap: Snapshot, now: Time)
    requires Settled(p, st, now)
    ensures forall s :: StopsBelow(p, OpenPhase(p, st, snap), snap, s)
  {
    hide Fold;
    hide Books;
    hide FillOne;
    hide GapStopOne;
    hide ExpireOne;
    hide Entries;
    hide BelowFill;
    var s1 := Fold(ExpireOne(snap), st, st.pending.order);
    ExpireEffect(st, snap);
    SameBooksKeep(p, st, s1);
    var s2 := Fold(GapStopOne(p, snap), s1, s1.positions.order);
    GapBelow(p, s1, snap);
    GapLeavesBelow(p, s2, snap);
    GapStopEffect(p, s1, snap);
    var items := Entries(s2.pending);
    EntriesDistinct(s2.pending);
    forall j | 0 <= j < |items| && items[j].1.Add? && items[j].0 in s2.positions.items
      ensures items[j].1.trailStop <= s2.positions.items[items[j].0].stop
    {
      var k := items[j].0;
      assert k in st.pending.items && st.pending.items[k] == items[j].1;
    }
    FillFoldBelow(p, s2, snap, items, |items|);
    FoldEnds(FillOne(p, snap), s2, items);
  }

  // ---------------------------------------------------------------- the price a trade is recorded at

  /** What a closed lot earns at an exit price, after the fees of both legs. */
  ghost function NetAt(p: Params, lot: Position, exit: real): real {
    lot.quantity * exit * (1.0 - p.fee) - lot.notional * (1.0 + p.fee)
  }

  lemma ProceedsAreNet(p: Params, pos: Position, px: real)
    ensures Proceeds(p, pos, px) - Cost(p, pos) == NetAt(p, pos, ExitPrice(p, px))
  {
    hide ExitPrice;
    var gross := pos.quantity * ExitPrice(p, px);
    assert gross * (1.0 - p.fee) == gross - gross * p.fee;
    assert pos.notional * (1.0 + p.fee) == pos.notional + pos.notional * p.fee;
  }

  /** A trade closed on this bar: where its price comes from, by its reason. */
  ghost predicate Priced(p: Params, tr: Trade, snap: Snapshot) {
    && tr.lot.symbol in snap.bars && tr.exitTime == snap.time && tr.lot.stop > 0.0
    && tr.pnl == NetAt(p, tr.lot, tr.exit)
    && var bar := snap.bars[tr.lot.symbol];
       match tr.reason
       case GapStop => bar.open <= tr.lot.stop && tr.exit == ExitPrice(p, bar.open)
       case SidelineLockdown => tr.lot.stop < bar.open && tr.exit == ExitPrice(p, bar.open)
       case Stop =>
         bar.low <= tr.lot.stop && BelowFill(p, tr.lot, bar, snap.time) && tr.exit == ExitPrice(p, tr.lot.stop)
       case EndOfData => false
  }

  /** Every trade was there before or is priced by this bar. */
  ghost predicate NewTradesPriced(p: Params, a: State, b: State, snap: Snapshot) {
    a.trades <= b.trades && forall i :: |a.trades| <= i < |b.trades| ==> Priced(p, b.trades[i], snap)
  }

  lemma PricedTransitive(p: Params, a: State, b: State, c: State, snap: Snapshot)
    requires NewTradesPriced(p, a, b, snap) && NewTradesPriced(p, b, c, snap)
    ensures NewTradesPriced(p, a, c, snap)
  {
    hide Priced;
  }

  lemma StopPositive(p: Params, st: State, s: Symbol)
    requires Books(p, st) && s in st.positions.items
    ensures st.positions.items[s].symbol == s && st.positions.items[s].stop > 0.0
  {
  }

  lemma GapOnePriced(p: Params, x: State, snap: Snapshot, s: Symbol)
    requires Books(p, x)
    ensures NewTradesPriced(p, x, GapStopOne(p, snap)(x, s), snap)
  {
    hide Books;
    hide ExitPrice;
    hide Proceeds;
    hide NetAt;
    hide Cost;
    if s in x.positions.items {
      StopPositive(p, x, s);
      if s in snap.bars {
        ProceedsAreNet(p, x.positions.items[s], snap.bars[s].open);
      }
    }
  }

  lemma {:induction false} GapFoldPriced(p: Params, st: State, snap: Snapshot, ks: seq<Symbol>, n: nat)
    requires n <= |ks| && Books(p, st)
    ensures NewTradesPriced(p, st, Fold(GapStopOne(p, snap), st, ks[..n]), snap)
  {
    hide Fold;
    hide Books;
    hide GapStopOne;
    hide Priced;
    FoldEnds(GapStopOne(p, snap), st, ks);
    if n > 0 {
      GapFoldPriced(p, st, snap, ks, n - 1);
      var x := Fold(GapStopOne(p, snap), st, ks[..n - 1]);
      GapStopFold(p, st, snap, ks, n - 1);
      GapOnePriced(p, x, snap, ks[n - 1]);
      FoldStep(GapStopOne(p, snap), st, ks, n - 1);
      PricedTransitive(p, st, x, GapStopOne(p, snap)(x, ks[n - 1]), snap);
    }
  }

  /** Of the proposals only an exit closes anything, at an open above the stop. */
  lemma FillOnePriced(p: Params, x: State, snap: Snapshot, item: (Symbol, Proposal))
    requires AboveGap(x, snap, item.0)
    requires item.0 in x.positions.items ==>
               x.positions.items[item.0].symbol == item.0 && x.positions.items[item.0].stop > 0.0
    ensures NewTradesPriced(p, x, FillOne(p, snap)(x, item), snap)
  {
    hide FillEntry;
    hide FillAdd;
    hide ExitPrice;
    hide Proceeds;
    hide NetAt;
    hide Cost;
    hide OpenPrice;
    hide EntryNotional;
    hide AddNotional;
    hide RoomOf;
    hide Enlarged;
    if item.0 in snap.bars {
      match item.1 {
      case Exit(_) =>
        if item.0 in x.positions.items {
          ProceedsAreNet(p, x.positions.items[item.0], snap.bars[item.0].open);
        }
      case Entry(signalTime, stop) => FillEntryIs(p, x, item.0, signalTime, stop, snap);
      case Add(_, trailStop) => FillAddIs(p, x, item.0, trailStop, snap);
      }
    }
  }

  lemma {:induction false} FillFoldPriced(p: Params, st: State, snap: Snapshot, items: seq<(Symbol, Proposal)>, n: nat)
    requires n <= |items| && DistinctKeys(items) && Books(p, st) && forall s :: AboveGap(st, snap, s)
    ensures var r := Fold(FillOne(p, snap), st, items[..n]);
            && NewTradesPriced(p, st, r, snap)
            && (forall k :: (forall j :: 0 <= j < n ==> items[j].0 != k) ==> Untouched(st, r, k))
  {
    hide Fold;
    hide FillOne;
    hide Books;
    hide Priced;
    FoldEnds(FillOne(p, snap), st, items);
    if n > 0 {
      FillFoldPriced(p, st, snap, items, n - 1);
      var x, item := Fold(FillOne(p, snap), st, items[..n - 1]), items[n - 1];
      FoldStep(FillOne(p, snap), st, items, n - 1);
      assert forall j :: 0 <= j < n - 1 ==> items[j].0 != item.0;
      assert Untouched(st, x, item.0) && AboveGap(st, snap, item.0);
      if item.0 in st.positions.items {
        StopPositive(p, st, item.0);
      }
      FillOnePriced(p, x, snap, item);
      FillOneTouches(p, x, item, snap);
      var r := FillOne(p, snap)(x, item);
      PricedTransitive(p, st, x, r, snap);
      forall k | forall j :: 0 <= j < n ==> items[j].0 != k ensures Untouched(st, r, k) {
        assert item.0 != k;
        assert Untouched(st, x, k) && Untouched(x, r, k);
      }
    }
  }

  lemma OpenPhasePriced(p: Params, st: State, snap: Snapshot, now: Time)
    requires Settled(p, st, now)
    ensures NewTradesPriced(p, st, OpenPhase(p, st, snap), snap)
  {
    hide Fold;
    hide Books;
    hide FillOne;
    hide GapStopOne;
    hide ExpireOne;
    hide Entries;
    hide Priced;
    var s1 := Fold(ExpireOne(snap), st, st.pending.order);
    ExpireEffect(st, snap);
    SameBooksKeep(p, st, s1);
    var ks := s1.positions.order;
    var s2 := Fold(GapStopOne(p, snap), s1, ks);
    GapFoldPriced(p, s1, snap, ks, |ks|);
    FoldEnds(GapStopOne(p, snap), s1, ks);
    GapBelow(p, s1, snap);
    GapStopEffect(p, s1, snap);
    var items := Entries(s2.pending);
    EntriesDistinct(s2.pending);
    FillFoldPriced(p, s2, snap, items, |items|);
    FoldEnds(FillOne(p, snap), s2, items);
    PricedTransitive(p, s1, s2, Fold(FillOne(p, snap), s2, items), snap);
  }

  lemma StopOnePriced(p: Params, x: State, snap: Snapshot, s: Symbol)
    requires Books(p, x) && StopsBelow(p, x, snap, s)
    ensures NewTradesPriced(p, x, StopOne(p, snap)(x, s), snap)
  {
    hide Books;
    hide ExitPrice;
    hide Proceeds;
    hide NetAt;
    hide Cost;
    hide BelowFill;
    if s in x.positions.items {
      StopPositive(p, x, s);
      ProceedsAreNet(p, x.positions.items[s], x.positions.items[s].stop);
    }
  }

  lemma {:induction false} StopFoldPriced(p: Params, st: State, snap: Snapshot, ks: seq<Symbol>, n: nat)
    requires n <= |ks| && Books(p, st) && forall s :: StopsBelow(p, st, snap, s)
    ensures NewTradesPriced(p, st, Fold(StopOne(p, snap), st, ks[..n]), snap)
  {
    hide Fold;
    hide Books;
    hide StopOne;
    hide Priced;
    hide BelowFill;
    hide AboveStop;
    FoldEnds(StopOne(p, snap), st, ks);
    if n > 0 {
      StopFoldPriced(p, st, snap, ks, n - 1);
      var x := Fold(StopOne(p, snap), st, ks[..n - 1]);
      StopFold(p, st, snap, ks, n - 1);
      assert StopsBelow(p, st, snap, ks[n - 1]);
      StopOnePriced(p, x, snap, ks[n - 1]);
      FoldStep(StopOne(p, snap), st, ks, n - 1);
      PricedTransitive(p, st, x, StopOne(p, snap)(x, ks[n - 1]), snap);
    }
  }

  /** Nothing after the stops of a bar closes a position. */
  lemma ClosePhaseTrades(p: Params, st: State, snap: Snapshot)
    requires Books(p, st)
    ensures var s4 := Fold(StopOne(p, snap), st, st.positions.order); var r := ClosePhase(p, st, snap);
            r.trades == s4.trades && forall s :: s in r.positions.items <==> s in s4.positions.items
  {
    hide Fold;
    hide Books;
    hide LockdownPhase;
    hide StopOne;
    hide RatchetOne;
    hide ProposeAddOne;
    hide SignalOne;
    var s4 := Fold(StopOne(p, snap), st, st.positions.order);
    StopEffect(p, st, snap);
    var s5 := LockdownPhase(p, s4, snap);
    LockdownEffect(p, s4, snap);
    SameBooksKeep(p, s4, s5);
    var s6 := Fold(RatchetOne(p, snap), s5, s5.positions.order);
    RatchetFold(p, s5, snap, s5.positions.order, |s5.positions.order|);
    FoldEnds(RatchetOne(p, snap), s5, s5.positions.order);
    var s7 := Fold(ProposeAddOne(p, snap), s6, s6.positions.order);
    AddsFold(p, s6, snap, s6.positions.order, |s6.positions.order|);
    FoldEnds(ProposeAddOne(p, snap), s6, s6.positions.order);
    SignalFold(p, s7, snap, snap.order, |snap.order|);
    FoldEnds(SignalOne(p, snap), s7, snap.order);
  }

  lemma BarPriced(p: Params, st: State, snap: Snapshot, now: Time)
    requires Settled(p, st, now)
    ensures NewTradesPriced(p, st, BarStep(p, st, snap), snap)
  {
    hide Fold;
    hide OpenPhase;
    hide ClosePhase;
    hide StopOne;
    hide Books;
    hide Priced;
    hide BelowFill;
    var mid := OpenPhase(p, st, snap);
    OpenPhasePriced(p, st, snap, now);
    SettledExecutable(p, st, now);
    OpenPhaseEffect(p, st, snap);
    OpenPhaseBelow(p, st, snap, now);
    var ks := mid.positions.order;
    StopFoldPriced(p, mid, snap, ks, |ks|);
    FoldEnds(StopOne(p, snap), mid, ks);
    ClosePhaseTrades(p, mid, snap);
    PricedTransitive(p, st, mid, Fold(StopOne(p, snap), mid, ks), snap);
  }

  ghost predicate PricedIn(p: Params, tr: Trade, snaps: seq<Snapshot>) {
    exists k :: 0 <= k < |snaps| && Priced(p, tr, snaps[k])
  }

  lemma PricedInExtends(p: Params, tr: Trade, snaps: seq<Snapshot>)
    requires snaps != [] && PricedIn(p, tr, snaps[..|snaps| - 1])
    ensures PricedIn(p, tr, snaps)
  {
    hide Priced;
    var k :| 0 <= k < |snaps| - 1 && Priced(p, tr, snaps[..|snaps| - 1][k]);
    assert Priced(p, tr, snaps[k]);
  }

  /** Every trade closed during a replay is priced by one of its bars. */
  lemma {:induction false} RunPriced(p: Params, snaps: seq<Snapshot>, i: nat)
    requires i < |Run(p, snaps).trades|
    ensures PricedIn(p, Run(p, snaps).trades[i], snaps)
  {
    hide BarStep;
    hide Priced;
    hide Settled;
    if snaps != [] {
      var n := |snaps| - 1;
      var st := Run(p, snaps[..n]);
      RunSettled(p, snaps[..n]);
      BarPriced(p, st, snaps[n], LastTime(snaps[..n]));
      if i < |st.trades| {
        RunPriced(p, snaps[..n], i);
        PricedInExtends(p, st.trades[i], snaps);
      } else {
        assert Priced(p, Run(p, snaps).trades[i], snaps[n]);
      }
    }
  }

  /** A stop below the slipped open sells at no more than the open. */
  lemma SlippedBelowOpen(p: Params, stop: real, open: real)
    requires 0.0 < stop <= open * (1.0 + p.slippage) && open > 0.0
    ensures ExitPrice(p, stop) <= Max(EPS, open)
  {
    Crossed(stop, open, p.slippage, open * (1.0 + p.slippage));
  }

  /** Slippage taken on both sides never gains. */
  lemma Crossed(stop: real, open: real, slippage: real, slipped: real)
    requires 0.0 < stop <= slipped && open > 0.0 && slippage >= 0.0 && slipped == open * (1.0 + slippage)
    ensures stop * (1.0 - slippage) <= open
  {
    if slippage < 1.0 {
      MulLeq(stop, slipped, 1.0 - slippage);
      var lost := open * slippage;
      MulNonNegative(open, slippage, lost);
      MulNonNegative(lost, slippage, lost * slippage);
      assert slipped == open + lost;
      SplitProduct(open, lost, 1.0 - slippage);
      assert open * (1.0 - slippage) == open - lost && lost * (1.0 - slippage) == lost - lost * slippage;
    } else {
      MulLeq(1.0 - slippage, 0.0, stop);
    }
  }

  lemma OpenSlipped(p: Params, open: real)
    requires open > 0.0
    ensures open <= open * (1.0 + p.slippage)
  {
    MulNonNegative(open, p.slippage, open * p.slippage);
  }

  /** No trade closed on a bar leaves above its open, or above EPS where that is larger. */
  lemma PricedBelowOpen(p: Params, tr: Trade, snap: Snapshot)
    requires Priced(p, tr, snap)
    ensures tr.exit <= Max(EPS, snap.bars[tr.lot.symbol].open)
  {
    hide ExitPrice;
    var bar := snap.bars[tr.lot.symbol];
    OpenSlipped(p, bar.open);
    if tr.reason == Stop {
      SlippedBelowOpen(p, tr.lot.stop, bar.open);
    } else {
      SlippedBelowOpen(p, bar.open, bar.open);
    }
  }

  /** Every stop exit of every replay: on the bar it is stamped with, which reached the stop, it is recorded at the
      stop less slippage and never above the open; it lies below the low of that bar exactly when slippage takes it
      there and the low is above EPS. */
  lemma StopTradePrice(p: Params, snaps: seq<Snapshot>, i: nat) returns (k: nat)
    requires snaps != [] && i < |Backtest(p, snaps).trades| && Backtest(p, snaps).trades[i].reason == Stop
    ensures k < |snaps|
    ensures var tr := Backtest(p, snaps).trades[i];
            && tr.lot.symbol in snaps[k].bars && tr.exitTime == snaps[k].time
            && var bar := snaps[k].bars[tr.lot.symbol];
               && bar.low <= tr.lot.stop
               && tr.exit == Max(EPS, tr.lot.stop * (1.0 - p.slippage))
               && tr.exit <= Max(EPS, bar.open)
               && (tr.exit < bar.low <==> EPS < bar.low && tr.lot.stop - bar.low < tr.lot.stop * p.slippage)
  {
    hide Backtest;
    hide BelowFill;
    k := DuringReplay(p, snaps, i);
    var tr := Backtest(p, snaps).trades[i];
    PricedBelowOpen(p, tr, snaps[k]);
    assert tr.lot.stop * (1.0 - p.slippage) == tr.lot.stop - tr.lot.stop * p.slippage;
  }

  /** Trades of the final report other than the final liquidation were closed on some bar. */
  lemma DuringReplay(p: Params, snaps: seq<Snapshot>, i: nat) returns (k: nat)
    requires snaps != [] && i < |Backtest(p, snaps).trades| && Backtest(p, snaps).trades[i].reason != EndOfData
    ensures k < |snaps| && Priced(p, Backtest(p, snaps).trades[i], snaps[k])
  {
    hide Run;
    hide Priced;
    hide Liquidated;
    LiquidatedTrades(p, snaps, i);
    RunPriced(p, snaps, i);
    k :| 0 <= k < |snaps| && Priced(p, Run(p, snaps).trades[i], snaps[k]);
  }

  // ---------------------------------------------------------------- the final liquidation

  /** The trade that closes a position at the end of the data. */
  ghost function FinalTrade(p: Params, st: State, s: Symbol, last: Snapshot): Trade
    requires s in st.positions.items
  {
    var pos, px := st.positions.items[s], FinalPrice(st, s, last);
    Trade(pos, last.time, ExitPrice(p, px), NetAt(p, pos, ExitPrice(p, px)), EndOfData)
  }

  /** After n positions have been liquidated: their trades in order, and the other positions as they were. */
  ghost predicate LiquidatedUpTo(p: Params, st: State, r: State, last: Snapshot, n: nat)
    requires n <= |st.positions.order|
  {
    var ks := st.positions.order;
    && r.histories == st.histories
    && |r.trades| == |st.trades| + n && st.trades <= r.trades
    && (forall i :: 0 <= i < n ==>
          ks[i] in st.positions.items && r.trades[|st.trades| + i] == FinalTrade(p, st, ks[i], last))
    && (forall i :: n <= i < |ks| ==> ks[i] in st.positions.items && Holds(r, ks[i], st.positions.items[ks[i]]))
  }

  lemma LiquidateOneIs(p: Params, st: State, x: State, last: Snapshot, s: Symbol)
    requires s in st.positions.items && Holds(x, s, st.positions.items[s]) && x.histories == st.histories
    ensures var r := LiquidateOne(p, last)(x, s);
            && r.trades == x.trades + [FinalTrade(p, st, s, last)] && r.histories == x.histories
            && forall k, pos :: k != s && Holds(x, k, pos) ==> Holds(r, k, pos)
  {
    hide ExitPrice;
    hide Proceeds;
    hide Cost;
    hide NetAt;
    hide HistoryOf;
    SameHistories(st, x, s);
    ProceedsAreNet(p, st.positions.items[s], FinalPrice(st, s, last));
  }

  lemma {:induction false} LiquidateFoldTrades(p: Params, st: State, last: Snapshot, n: nat)
    requires n <= |st.positions.order|
    ensures LiquidatedUpTo(p, st, Fold(LiquidateOne(p, last), st, st.positions.order[..n]), last, n)
  {
    hide Fold;
    hide LiquidateOne;
    hide FinalTrade;
    var ks := st.positions.order;
    FoldEnds(LiquidateOne(p, last), st, ks);
    OrderPresent(st.positions);
    if n > 0 {
      LiquidateFoldTrades(p, st, last, n - 1);
      FoldStep(LiquidateOne(p, last), st, ks, n - 1);
      LiquidateOneIs(p, st, Fold(LiquidateOne(p, last), st, ks[..n - 1]), last, ks[n - 1]);
    }
  }

  lemma LiquidatedTrades(p: Params, snaps: seq<Snapshot>, i: nat)
    requires snaps != [] && i < |Backtest(p, snaps).trades|
    ensures var st, r := Run(p, snaps), Backtest(p, snaps);
            if i < |st.trades| then r.trades[i] == st.trades[i]
            else r.trades[i].reason == EndOfData
  {
    hide Run;
    hide Fold;
    var st, last := Run(p, snaps), snaps[|snaps| - 1];
    var ks := st.positions.order;
    LiquidateFoldTrades(p, st, last, |ks|);
    FoldEnds(LiquidateOne(p, last), st, ks);
    if i >= |st.trades| {
      assert Backtest(p, snaps).trades[|st.trades| + (i - |st.trades|)] == FinalTrade(p, st, ks[i - |st.trades|], last);
    }
  }

  /** Bar k is the last one in which the symbol traded. */
  ghost predicate LastTraded(snaps: seq<Snapshot>, s: Symbol, k: nat) {
    k < |snaps| && s in snaps[k].bars && forall j :: k < j < |snaps| ==> s !in snaps[j].bars
  }

  /** A position closed by the final liquidation, at the close of the last bar in which its symbol traded. */
  ghost predicate ClosedAtEnd(p: Params, tr: Trade, pos: Position, snaps: seq<Snapshot>) {
    && tr.lot == pos && tr.reason == EndOfData && tr.exitTime == LastTime(snaps) && tr.pnl == NetAt(p, pos, tr.exit)
    && exists k: nat :: LastTraded(snaps, pos.symbol, k) && tr.exit == ExitPrice(p, snaps[k].bars[pos.symbol].close)
  }

  lemma FinalTradeObserved(p: Params, snaps: seq<Snapshot>, s: Symbol)
    requires snaps != [] && Increasing(snaps) && s in Run(p, snaps).positions.items
    ensures ClosedAtEnd(p, FinalTrade(p, Run(p, snaps), s, snaps[|snaps| - 1]), Run(p, snaps).positions.items[s], snaps)
  {
    hide Run;
    hide Books;
    hide ExitPrice;
    HistoryIsPoints(p, snaps, s);
    PairsPassed(p, snaps);
    RunSettled(p, snaps);
    BooksKeys(p, Run(p, snaps));
    assert Live(Run(p, snaps), s);
    var k := LastPoint(snaps, s);
    assert LastTraded(snaps, s, k);
  }

  /** The whole report: first the trades closed during the replay, each priced by the bar it is stamped with, then
      one trade for each position still open, in the order of the positions, at its symbol's last close. */
  lemma ReplayTrades(p: Params, snaps: seq<Snapshot>)
    requires snaps != [] && Increasing(snaps)
    ensures var st, r := Run(p, snaps), Backtest(p, snaps);
            && |r.trades| == |st.trades| + |st.positions.order| && st.trades <= r.trades
            && (forall i :: 0 <= i < |st.trades| ==> PricedIn(p, r.trades[i], snaps))
            && (forall j :: 0 <= j < |st.positions.order| ==>
                  && st.positions.order[j] in st.positions.items
                  && ClosedAtEnd(p, r.trades[|st.trades| + j], st.positions.items[st.positions.order[j]], snaps))
  {
    hide Run;
    hide Fold;
    hide PricedIn;
    hide FinalTrade;
    hide ClosedAtEnd;
    hide Increasing;
    var st, last := Run(p, snaps), snaps[|snaps| - 1];
    var ks := st.positions.order;
    LiquidateFoldTrades(p, st, last, |ks|);
    FoldEnds(LiquidateOne(p, last), st, ks);
    forall i | 0 <= i < |st.trades| ensures PricedIn(p, Backtest(p, snaps).trades[i], snaps) {
      RunPriced(p, snaps, i);
    }
    forall j | 0 <= j < |ks|
      ensures ks[j] in st.positions.items
      ensures ClosedAtEnd(p, Backtest(p, snaps).trades[|st.trades| + j], st.positions.items[ks[j]], snaps)
    {
      FinalTradeObserved(p, snaps, ks[j]);
    }
  }

  /** A position open after the last bar has its trade in the report, closed at the last close of its symbol. */
  lemma FinalPriceObserved(p: Params, snaps: seq<Snapshot>, s: Symbol)
    requires snaps != [] && Increasing(snaps) && s in Run(p, snaps).positions.items
    ensures exists tr :: tr in Backtest(p, snaps).trades && ClosedAtEnd(p, tr, Run(p, snaps).positions.items[s], snaps)
  {
    hide Run;
    hide Backtest;
    hide PricedIn;
    hide ClosedAtEnd;
    hide Increasing;
    ReplayTrades(p, snaps);
    var st, r := Run(p, snaps), Backtest(p, snaps);
    var j :| 0 <= j < |st.positions.order| && st.positions.order[j] == s;
    assert ClosedAtEnd(p, r.trades[|st.trades| + j], st.positions.items[s], snaps);
    assert r.trades[|st.trades| + j] in r.trades;
  }

  // ---------------------------------------------------------------- which stops a bar can trigger

  /** The level that triggers a stop, before slippage, and the range of the bar, for any position after the opening
      of any bar of any replay: the level lies above the bar's high if and only if the lot was filled at this open
      from an entry whose own stop does, and then it lies below the fill price, which takes slippage. */
  lemma TriggerAboveHighIff(p: Params, snaps: seq<Snapshot>, snap: Snapshot, s: Symbol)
    requires Increasing(snaps + [snap]) && s in OpenPhase(p, Run(p, snaps), snap).positions.items && s in snap.bars
    ensures var st, pos, bar := Run(p, snaps), OpenPhase(p, Run(p, snaps), snap).positions.items[s], snap.bars[s];
            && (bar.high < pos.stop <==>
                  s in st.pending.items && st.pending.items[s].Entry? && bar.high < st.pending.items[s].stop)
            && (bar.high < pos.stop ==> pos.entryTime == snap.time && pos.stop < OpenPrice(p, bar) && p.slippage > 0.0)
  {
    hide OpenPhase;
    hide Run;
    hide Books;
    hide TradesFrom;
    hide OpenPrice;
    var st, mid := Run(p, snaps), OpenPhase(p, Run(p, snaps), snap);
    RunSettled(p, snaps);
    OpenPhaseBelow(p, st, snap, LastTime(snaps));
    assert StopsBelow(p, mid, snap, s);
    OpenPhaseEffect(p, st, snap);
    assert OpenedFrom(st, mid, s, snap);
    assert snap.bars[s].open <= snap.bars[s].high;
    if snap.bars[s].high < mid.positions.items[s].stop {
      NoSlippage(p, snap.bars[s]);
      if s in st.positions.items {
        OldLotEarlier(p, snaps, snap, s);
        assert false;
      }
    }
  }

  lemma NoSlippage(p: Params, bar: Bar)
    requires BarOk(bar)
    ensures p.slippage == 0.0 ==> OpenPrice(p, bar) == bar.open
  {
  }

  /** A lot open before a bar was entered earlier. */
  lemma OldLotEarlier(p: Params, snaps: seq<Snapshot>, snap: Snapshot, s: Symbol)
    requires Increasing(snaps + [snap]) && s in Run(p, snaps).positions.items
    ensures Run(p, snaps).positions.items[s].entryTime < snap.time
  {
    hide Run;
    var all := snaps + [snap];
    assert all[..|snaps|] == snaps;
    EnteredBefore(p, all, |snaps|, |snaps|, s);
  }

  /** The stop exit of a position on a bar. */
  ghost function StopTrade(p: Params, pos: Position, snap: Snapshot): Trade {
    var exit := ExitPrice(p, pos.stop);
    Trade(pos, snap.time, exit, NetAt(p, pos, exit), Stop)
  }

  lemma StopOneIs(p: Params, x: State, snap: Snapshot, k: Symbol, s: Symbol, pos: Position)
    requires s in snap.bars && (Holds(x, s, pos) || StopTrade(p, pos, snap) in x.trades)
    ensures var r := StopOne(p, snap)(x, k);
            && (Holds(r, s, pos) || StopTrade(p, pos, snap) in r.trades)
            && (k == s && snap.bars[s].low <= pos.stop ==> StopTrade(p, pos, snap) in r.trades)
            && x.trades <= r.trades
  {
    hide ExitPrice;
    hide Proceeds;
    hide NetAt;
    hide Cost;
    ProceedsAreNet(p, pos, pos.stop);
    var r := StopOne(p, snap)(x, k);
    assert x.trades <= r.trades;
    if k == s && Holds(x, s, pos) && snap.bars[s].low <= pos.stop {
      assert r.trades[|x.trades|] == StopTrade(p, pos, snap);
    }
  }

  lemma {:induction false} StopFoldRecords(p: Params, st: State, snap: Snapshot,
                                           ks: seq<Symbol>, n: nat, s: Symbol, pos: Position)
    requires n <= |ks| && s in snap.bars && Holds(st, s, pos)
    ensures var r := Fold(StopOne(p, snap), st, ks[..n]);
            && (Holds(r, s, pos) || StopTrade(p, pos, snap) in r.trades)
            && (s in ks[..n] && snap.bars[s].low <= pos.stop ==> StopTrade(p, pos, snap) in r.trades)
  {
    hide Fold;
    hide StopOne;
    hide StopTrade;
    hide Holds;
    FoldEnds(StopOne(p, snap), st, ks);
    if n > 0 {
      StopFoldRecords(p, st, snap, ks, n - 1, s, pos);
      StopOneIs(p, Fold(StopOne(p, snap), st, ks[..n - 1]), snap, ks[n - 1], s, pos);
      FoldStep(StopOne(p, snap), st, ks, n - 1);
      assert ks[..n] == ks[..n - 1] + [ks[n - 1]];
    }
  }

  /** On any bar of any replay a position that is open after the opening leaves by its stop on that bar, with its
      trade recorded, if and only if the low reaches the stop; a lot filled at this open is no exception. */
  lemma StoppedIff(p: Params, snaps: seq<Snapshot>, snap: Snapshot, s: Symbol)
    requires s in OpenPhase(p, Run(p, snaps), snap).positions.items && s in snap.bars
    ensures var mid, r := OpenPhase(p, Run(p, snaps), snap), BarStep(p, Run(p, snaps), snap);
            var pos := mid.positions.items[s];
            && (s !in r.positions.items <==> snap.bars[s].low <= pos.stop)
            && (s !in r.positions.items ==> StopTrade(p, pos, snap) in r.trades)
  {
    hide OpenPhase;
    hide ClosePhase;
    hide Run;
    hide Books;
    hide Fold;
    hide StopTrade;
    hide Opened;
    var st := Run(p, snaps);
    var mid := OpenPhase(p, st, snap);
    RunSettled(p, snaps);
    SettledExecutable(p, st, LastTime(snaps));
    OpenPhaseEffect(p, st, snap);
    OpenedBooks(p, st, mid, snap);
    var ks, pos := mid.positions.order, mid.positions.items[s];
    assert s in ks && ks[..|ks|] == ks;
    StopFoldRecords(p, mid, snap, ks, |ks|, s, pos);
    StopEffect(p, mid, snap);
    FoldEnds(StopOne(p, snap), mid, ks);
    ClosePhaseTrades(p, mid, snap);
    if pos.stop < snap.bars[s].low {
      StopFoldKeeps(p, mid, snap, ks, |ks|, s);
    }
  }

  lemma OpenedBooks(p: Params, a: State, b: State, snap: Snapshot)
    requires Opened(p, a, b, snap)
    ensures Books(p, b)
  {
  }

  lemma {:induction false} StopFoldKeeps(p: Params, st: State, snap: Snapshot, ks: seq<Symbol>, n: nat, s: Symbol)
    requires n <= |ks| && s in snap.bars && s in st.positions.items && st.positions.items[s].stop < snap.bars[s].low
    ensures Holds(Fold(StopOne(p, snap), st, ks[..n]), s, st.positions.items[s])
  {
    hide Fold;
    hide ExitPrice;
    hide Proceeds;
    FoldEnds(StopOne(p, snap), st, ks);
    if n > 0 {
      StopFoldKeeps(p, st, snap, ks, n - 1, s);
      FoldStep(StopOne(p, snap), st, ks, n - 1);
    }
  }
}
