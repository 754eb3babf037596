/** What holds of every replay: the books, the proposal protocol, the sizing limits, no look-ahead. */
module BacktestTheorems {
  import opened Arithmetic
  import opened OrderedDict
  import opened BacktestModel
  import opened BacktestBooks
  import opened BacktestProtocol

  // ---------------------------------------------------------------- one bar

  /** After the opening only exits of held symbols that do not trade are pending. */
  ghost predicate OnlyWaitingExits(st: State, snap: Snapshot) {
    forall s :: s in st.pending.items ==> st.pending.items[s].Exit? && s !in snap.bars && s in st.positions.items
  }

  lemma {:induction false} StopSkipsFold(p: Params, st: State, snap: Snapshot, ks: seq<Symbol>, n: nat)
    requires n <= |ks|
    ensures forall s :: s in st.positions.items && s !in snap.bars ==>
              s in Fold(StopOne(p, snap), st, ks[..n]).positions.items
  {
    hide Fold;
    FoldEnds(StopOne(p, snap), st, ks);
    if n > 0 {
      StopSkipsFold(p, st, snap, ks, n - 1);
      FoldStep(StopOne(p, snap), st, ks, n - 1);
    }
  }

  /** Positions after the bar are lots that were open before its close, with stops that did not fall. */
  ghost predicate LotsFrom(a: State, b: State) {
    && TradesFrom(a, b)
    && forall s :: s in b.positions.items ==>
      s in a.positions.items && SameLot(a.positions.items[s], b.positions.items[s])
      && a.positions.items[s].stop <= b.positions.items[s].stop
  }

  ghost predicate Settled(p: Params, st: State, now: Time) {
    Books(p, st) && Protocol(p, st, now)
  }

  lemma LockdownSettles(p: Params, st: State, snap: Snapshot)
    requires OnlyWaitingExits(st, snap)
    ensures var r := LockdownPhase(p, st, snap);
            && SameBooks(st, r) && r.histories == st.histories && r.benchmarks == st.benchmarks + [snap.benchmark]
            && (forall s :: s in r.pending.items ==> r.pending.items[s].Exit? && s in r.positions.items)
            && (r.lockdown ==> forall s :: s in r.positions.items ==> s in r.pending.items)
  {
    hide LockdownPhase;
    LockdownEffect(p, st, snap);
  }

  lemma ClosePhaseEffect(p: Params, st: State, snap: Snapshot)
    requires Books(p, st) && OnlyWaitingExits(st, snap)
    ensures Settled(p, ClosePhase(p, st, snap), snap.time) && LotsFrom(st, ClosePhase(p, st, snap))
  {
    hide Fold;
    hide Books;
    hide LockdownPhase;
    hide StopOne;
    hide RatchetOne;
    hide ProposeAddOne;
    hide SignalOne;
    var ks := st.positions.order;
    var s4 := Fold(StopOne(p, snap), st, ks);
    StopEffect(p, st, snap);
    StopSkipsFold(p, st, snap, ks, |ks|);
    FoldEnds(StopOne(p, snap), st, ks);
    var s5 := LockdownPhase(p, s4, snap);
    LockdownSettles(p, s4, snap);
    SameBooksKeep(p, s4, s5);
    var s6 := Fold(RatchetOne(p, snap), s5, s5.positions.order);
    RatchetFold(p, s5, snap, s5.positions.order, |s5.positions.order|);
    FoldEnds(RatchetOne(p, snap), s5, s5.positions.order);
    var s7 := Fold(ProposeAddOne(p, snap), s6, s6.positions.order);
    AddsFold(p, s6, snap, s6.positions.order, |s6.positions.order|);
    FoldEnds(ProposeAddOne(p, snap), s6, s6.positions.order);
    SameBooksKeep(p, s6, s7);
    var s8 := Fold(SignalOne(p, snap), s7, snap.order);
    SignalFold(p, s7, snap, snap.order, |snap.order|);
    FoldEnds(SignalOne(p, snap), s7, snap.order);
    SameBooksKeep(p, s7, s8);
    ProposalsSettle(p, s6, s7, s8, snap);
  }

  lemma ProposalsSettle(p: Params, s6: State, s7: State, s8: State, snap: Snapshot)
    requires forall s :: s in s6.pending.items ==> s6.pending.items[s].Exit? && s in s6.positions.items
    requires s6.lockdown ==> forall s :: s in s6.positions.items ==> s in s6.pending.items
    requires AddsProposed(p, s6, s7, snap) && EntriesProposed(s7, s8, snap)
    ensures Protocol(p, s8, snap.time)
  {
    forall s | s in s8.pending.items
      ensures s8.pending.items[s].Entry? ==> s8.pending.items[s].stop > 0.0
      ensures s in s8.positions.items ==> Fits(p, s8.pending.items[s], s8.positions.items[s])
      ensures s8.pending.items[s].Entry? <==> s !in s8.positions.items
      ensures !s8.pending.items[s].Exit? ==> s8.pending.items[s].signalTime == snap.time && !s8.lockdown
    {
    }
  }

  lemma OpenedLeavesWaitingExits(p: Params, a: State, b: State, snap: Snapshot, before: Time)
    requires Protocol(p, a, before) && Opened(p, a, b, snap)
    ensures Books(p, b) && OnlyWaitingExits(b, snap)
  {
  }

  /** One bar keeps the books and the protocol. */
  lemma BarKeepsSettled(p: Params, st: State, snap: Snapshot, before: Time)
    requires Settled(p, st, before)
    ensures Settled(p, BarStep(p, st, snap), snap.time)
  {
    hide OpenPhase;
    hide ClosePhase;
    hide Books;
    OpenPhaseEffect(p, st, snap);
    OpenedLeavesWaitingExits(p, st, OpenPhase(p, st, snap), snap, before);
    ClosePhaseEffect(p, OpenPhase(p, st, snap), snap);
  }

  lemma StartSettled(p: Params, now: Time)
    ensures Settled(p, Start(p), now)
  {
    var st := Start(p);
    assert Sum(Booked(p), st.positions) == 0.0;
    forall s, t ensures multiset(st.entered)[(s, t)] as real
      == TradesOf(st.trades, s, t) as real + Sum(IsLot(s, t), st.positions) {
    }
  }

  ghost function LastTime(snaps: seq<Snapshot>): Time {
    if snaps == [] then 0 else snaps[|snaps| - 1].time
  }

  /** Every reachable state: the books balance, each position risks at most its recorded risk, at most
      `maxAssets` are open with at most `maxAdditions` additions each, and the proposal protocol holds. */
  lemma {:induction false} RunSettled(p: Params, snaps: seq<Snapshot>)
    ensures Settled(p, Run(p, snaps), LastTime(snaps))
  {
    hide BarStep;
    hide Settled;
    if snaps == [] {
      StartSettled(p, 0);
    } else {
      var n := |snaps| - 1;
      RunSettled(p, snaps[..n]);
      BarKeepsSettled(p, Run(p, snaps[..n]), snaps[n], LastTime(snaps[..n]));
    }
  }

  /** The end of a replay: no position is left, the final equity is the initial cash plus the sum of all
      net results, and every entry has become exactly one trade. */
  lemma ReplayBalances(p: Params, snaps: seq<Snapshot>)
    requires snaps != []
    ensures var r := Backtest(p, snaps);
            && (forall s :: s !in r.positions.items)
            && r.cash == p.initialCash + Pnl(r.trades)
            && (forall s, t :: multiset(r.entered)[(s, t)] == TradesOf(r.trades, s, t))
            && TradesSound(p, r.trades)
            && (p.fee <= 1.0 ==> r.cash >= 0.0)
  {
    hide Run;
    hide Liquidated;
    var r := Backtest(p, snaps);
    RunSettled(p, snaps);
    LiquidateEffect(p, Run(p, snaps), snaps[|snaps| - 1]);
    SumOverNothing(Booked(p), r.positions.order, r.positions.items);
    forall s, t ensures multiset(r.entered)[(s, t)] == TradesOf(r.trades, s, t) {
      SumOverNothing(IsLot(s, t), r.positions.order, r.positions.items);
      assert multiset(r.entered)[(s, t)] as real == TradesOf(r.trades, s, t) as real + Sum(IsLot(s, t), r.positions);
    }
  }

  /** Without costs no stop exit of any replay loses more than the recorded risk: r_multiple >= -1. */
  lemma StopExitsLoseAtMostOneR(p: Params, snaps: seq<Snapshot>, i: nat)
    requires snaps != [] && i < |Backtest(p, snaps).trades| && Backtest(p, snaps).trades[i].reason == Stop
    requires p.fee == 0.0 && p.slippage == 0.0
    ensures Backtest(p, snaps).trades[i].lot.initialRisk > 0.0
    ensures Backtest(p, snaps).trades[i].pnl / Backtest(p, snaps).trades[i].lot.initialRisk >= -1.0
  {
    hide Backtest;
    ReplayBalances(p, snaps);
    var tr := Backtest(p, snaps).trades[i];
    assert StopLossBounded(p, tr);
    assert tr.lot.notional * 0.0 == 0.0;
    assert tr.lot.quantity * tr.lot.stop * 0.0 == 0.0;
    RatioAtLeast(tr.pnl, tr.lot.initialRisk);
  }

  lemma RatioAtLeast(pnl: real, risk: real)
    requires risk > 0.0 && -pnl <= risk
    ensures pnl / risk >= -1.0
  {
    DivTimes(pnl, risk);
    QuotientAtLeast(pnl / risk, pnl, risk);
  }

  lemma QuotientAtLeast(q: real, pnl: real, risk: real)
    requires risk > 0.0 && -pnl <= risk && q * risk == pnl
    ensures q >= -1.0
  {
    if q < -1.0 {
      MulLess(q, -1.0, risk);
      assert false;
    }
  }

  // ---------------------------------------------------------------- exits under lockdown

  ghost predicate ExitPending(st: State, s: Symbol) {
    s in st.positions.items && s in st.pending.items && st.pending.items[s].Exit?
  }

  lemma LockdownHasExits(p: Params, snaps: seq<Snapshot>, s: Symbol)
    requires Run(p, snaps).lockdown && s in Run(p, snaps).positions.items
    ensures ExitPending(Run(p, snaps), s)
    ensures forall k :: k in Run(p, snaps).pending.items ==> Run(p, snaps).pending.items[k].Exit?
  {
    hide Run;
    hide Books;
    RunSettled(p, snaps);
  }

  lemma OpenPhaseKeepsWaitingExit(p: Params, st: State, snap: Snapshot, s: Symbol)
    requires Books(p, st) && Executable(p, st) && ExitPending(st, s) && s !in snap.bars
    ensures ExitPending(OpenPhase(p, st, snap), s)
  {
    hide Fold;
    hide Books;
    hide FillOne;
    hide GapStopOne;
    hide ExpireOne;
    hide Entries;
    var s1 := Fold(ExpireOne(snap), st, st.pending.order);
    ExpireEffect(st, snap);
    SameBooksKeep(p, st, s1);
    var s2 := Fold(GapStopOne(p, snap), s1, s1.positions.order);
    GapStopEffect(p, s1, snap);
    GapStopSkips(p, s1, snap);
    FillLeavesAlone(p, s2, snap, Entries(s2.pending), |Entries(s2.pending)|, s);
    FoldEnds(FillOne(p, snap), s2, Entries(s2.pending));
  }

  lemma {:induction false} FillLeavesAlone(p: Params, st: State, snap: Snapshot,
                                           items: seq<(Symbol, Proposal)>, n: nat, s: Symbol)
    requires n <= |items| && s !in snap.bars
    ensures Untouched(st, Fold(FillOne(p, snap), st, items[..n]), s)
  {
    hide Fold;
    hide FillOne;
    FoldEnds(FillOne(p, snap), st, items);
    if n > 0 {
      FillLeavesAlone(p, st, snap, items, n - 1, s);
      var x := Fold(FillOne(p, snap), st, items[..n - 1]);
      FillOneTouches(p, x, items[n - 1], snap);
      assert items[n - 1].0 != s ==> Untouched(x, FillOne(p, snap)(x, items[n - 1]), s);
      FoldStep(FillOne(p, snap), st, items, n - 1);
    }
  }

  lemma ClosePhaseKeepsWaitingExit(p: Params, st: State, snap: Snapshot, s: Symbol)
    requires Books(p, st) && OnlyWaitingExits(st, snap) && ExitPending(st, s) && s !in snap.bars
    ensures ExitPending(ClosePhase(p, st, snap), s)
  {
    hide Fold;
    hide Books;
    hide LockdownPhase;
    hide StopOne;
    hide RatchetOne;
    hide ProposeAddOne;
    hide SignalOne;
    var ks := st.positions.order;
    var s4 := Fold(StopOne(p, snap), st, ks);
    StopEffect(p, st, snap);
    StopSkipsFold(p, st, snap, ks, |ks|);
    FoldEnds(StopOne(p, snap), st, ks);
    var s5 := LockdownPhase(p, s4, snap);
    LockdownEffect(p, s4, snap);
    SameBooksKeep(p, s4, s5);
    var s6 := Fold(RatchetOne(p, snap), s5, s5.positions.order);
    RatchetFold(p, s5, snap, s5.positions.order, |s5.positions.order|);
    FoldEnds(RatchetOne(p, snap), s5, s5.positions.order);
    var s7 := Fold(ProposeAddOne(p, snap), s6, s6.positions.order);
    AddsFold(p, s6, snap, s6.positions.order, |s6.positions.order|);
    FoldEnds(ProposeAddOne(p, snap), s6, s6.positions.order);
    SignalFold(p, s7, snap, snap.order, |snap.order|);
    FoldEnds(SignalOne(p, snap), s7, snap.order);
  }

  /** A pending exit outlives every bar in which the symbol does not trade. */
  lemma {:induction false} ExitWaits(p: Params, snaps: seq<Snapshot>, k: nat, j: nat, s: Symbol)
    requires k <= j <= |snaps| && ExitPending(Run(p, snaps[..k]), s)
    requires forall i :: k <= i < j ==> s !in snaps[i].bars
    ensures ExitPending(Run(p, snaps[..j]), s)
    decreases j
  {
    hide OpenPhase;
    hide ClosePhase;
    hide Books;
    hide Protocol;
    hide Opened;
    hide OnlyWaitingExits;
    if k < j {
      ExitWaits(p, snaps, k, j - 1, s);
      assert snaps[..j][..j - 1] == snaps[..j - 1];
      var st, snap := Run(p, snaps[..j - 1]), snaps[j - 1];
      RunSettled(p, snaps[..j - 1]);
      SettledExecutable(p, st, LastTime(snaps[..j - 1]));
      OpenPhaseKeepsWaitingExit(p, st, snap, s);
      OpenPhaseEffect(p, st, snap);
      OpenedLeavesWaitingExits(p, st, OpenPhase(p, st, snap), snap, LastTime(snaps[..j - 1]));
      ClosePhaseKeepsWaitingExit(p, OpenPhase(p, st, snap), snap, s);
    }
  }

  lemma SettledExecutable(p: Params, st: State, now: Time)
    requires Settled(p, st, now)
    ensures Books(p, st) && Executable(p, st)
  {
  }

  // ---------------------------------------------------------------- sizing limits

  lemma MarkOf(p: Params, snap: Snapshot, pos: Position)
    requires pos.symbol in snap.bars
    ensures Mark(snap, AtFill(p))(pos) == pos.quantity * OpenPrice(p, snap.bars[pos.symbol])
  {
  }

  lemma MarkPut(p: Params, st: State, s: Symbol, pos: Position, snap: Snapshot)
    requires s in snap.bars && pos.symbol == s && AllSound(p, st.positions)
    ensures Sum(Mark(snap, AtFill(p)), Put(st.positions, s, pos))
         == BasketNotional(p, st, snap) + pos.quantity * OpenPrice(p, snap.bars[s])
            - (if s in st.positions.items then st.positions.items[s].quantity * OpenPrice(p, snap.bars[s]) else 0.0)
    ensures Sum(Risk(), Put(st.positions, s, pos))
         == BasketRisk(st) + pos.initialRisk
            - (if s in st.positions.items then st.positions.items[s].initialRisk else 0.0)
  {
    hide Mark;
    hide OpenPrice;
    hide Sum;
    hide Sound;
    SumPut(Mark(snap, AtFill(p)), st.positions, s, pos);
    SumPut(Risk(), st.positions, s, pos);
    MarkOf(p, snap, pos);
    if s in st.positions.items {
      MarkOf(p, snap, st.positions.items[s]);
    }
  }

  /** Right after an entry the position and the basket, marked at the fill price, are within their
      fractions of the equity marked at the open. */
  lemma EntryWithinLimits(p: Params, st: State, s: Symbol, signalTime: Time, stop: real, snap: Snapshot)
    requires Books(p, st) && s in snap.bars && EntryFills(p, st, s, stop, snap)
    ensures var r := FillEntry(p, st, s, signalTime, stop, snap);
            var equity := MarkEquity(st, snap);
            && s in r.positions.items
            && r.positions.items[s].notional <= equity * p.assetFraction
            && r.positions.items[s].initialRisk <= equity * p.assetRiskFraction
            && BasketNotional(p, r, snap) <= equity * p.basketFraction
            && BasketRisk(r) <= equity * p.basketRiskFraction
  {
    hide FillEntry;
    hide EntryNotional;
    hide MarkEquity;
    hide Sum;
    hide Balanced;
    hide Logged;
    hide TradesSound;
    hide Sound;
    hide OpenPrice;
    hide Cost;
    hide EntryPaid;
    FillEntryIs(p, st, s, signalTime, stop, snap);
    var openPx := OpenPrice(p, snap.bars[s]);
    var room := RoomOf(p, st, snap);
    var x := EntryNotional(p, room, openPx, stop);
    EntrySizing(p, room, openPx, stop);
    MarkPut(p, st, s, NewLot(s, signalTime, snap.time, openPx, stop, x), snap);
  }

  /** Right after an addition the enlarged position and the basket are within the same fractions. */
  lemma AddWithinLimits(p: Params, st: State, s: Symbol, trailStop: real, snap: Snapshot)
    requires Books(p, st) && s in snap.bars && AddFills(p, st, s, trailStop, snap)
    ensures var r := FillAdd(p, st, s, trailStop, snap);
            var equity := MarkEquity(st, snap);
            && s in r.positions.items
            && r.positions.items[s].quantity * OpenPrice(p, snap.bars[s]) <= equity * p.assetFraction
            && r.positions.items[s].initialRisk <= equity * p.assetRiskFraction
            && BasketNotional(p, r, snap) <= equity * p.basketFraction
            && BasketRisk(r) <= equity * p.basketRiskFraction
  {
    hide FillAdd;
    hide AddNotional;
    hide MarkEquity;
    hide Sum;
    hide Enlarged;
    FillAddIs(p, st, s, trailStop, snap);
    var openPx := OpenPrice(p, snap.bars[s]);
    var room := RoomOf(p, st, snap);
    var pos := st.positions.items[s];
    var newStop := Max(pos.stop, trailStop);
    var x := AddNotional(p, room, pos, openPx, newStop);
    AddSizing(p, room, pos, openPx, newStop);
    var bigger := Enlarged(pos, x, openPx, newStop);
    EnlargedLot(pos, x, openPx, newStop);
    MarkPut(p, st, s, bigger, snap);
    assert (bigger.quantity - pos.quantity) * openPx == bigger.quantity * openPx - pos.quantity * openPx;
  }

  // ---------------------------------------------------------------- no look-ahead

  /** The same symbols trade at the same time with the same opens; everything else may differ. */
  ghost predicate SameOpens(a: Snapshot, b: Snapshot) {
    && a.time == b.time && a.bars.Keys == b.bars.Keys
    && forall s :: s in a.bars ==> a.bars[s].open == b.bars[s].open
  }

  lemma {:induction false} SumOverCongruent(f: Position -> real, g: Position -> real,
                                            order: seq<Symbol>, items: map<Symbol, Position>)
    requires forall pos :: f(pos) == g(pos)
    ensures SumOver(f, order, items) == SumOver(g, order, items)
  {
    if order != [] {
      SumOverCongruent(f, g, order[1..], items);
    }
  }

  lemma MarkIgnoresBar(p: Params, a: Snapshot, b: Snapshot)
    requires SameOpens(a, b)
    ensures forall pos :: Mark(a, AtOpen())(pos) == Mark(b, AtOpen())(pos)
    ensures forall pos :: Mark(a, AtFill(p))(pos) == Mark(b, AtFill(p))(pos)
  {
    forall pos: Position
      ensures Mark(a, AtOpen())(pos) == Mark(b, AtOpen())(pos) && Mark(a, AtFill(p))(pos) == Mark(b, AtFill(p))(pos)
    {
      assert pos.symbol in a.bars.Keys <==> pos.symbol in b.bars.Keys;
    }
  }

  lemma RoomIgnoresBar(p: Params, st: State, a: Snapshot, b: Snapshot)
    requires SameOpens(a, b)
    ensures RoomOf(p, st, a) == RoomOf(p, st, b)
  {
    MarkIgnoresBar(p, a, b);
    SumOverCongruent(Mark(a, AtOpen()), Mark(b, AtOpen()), st.positions.order, st.positions.items);
    SumOverCongruent(Mark(a, AtFill(p)), Mark(b, AtFill(p)), st.positions.order, st.positions.items);
  }

  lemma OpenPriceSame(p: Params, a: Snapshot, b: Snapshot, s: Symbol)
    requires s in a.bars && s in b.bars && a.bars[s].open == b.bars[s].open
    ensures OpenPrice(p, a.bars[s]) == OpenPrice(p, b.bars[s])
  {
  }

  lemma ExecuteIgnoresBar(p: Params, st: State, s: Symbol, prop: Proposal, a: Snapshot, b: Snapshot)
    requires SameOpens(a, b) && s in a.bars && s in b.bars
    ensures Execute(p, st, s, prop, a) == Execute(p, st, s, prop, b)
  {
    hide RoomOf;
    hide EntryNotional;
    hide AddNotional;
    hide Enlarged;
    hide NewLot;
    hide Close;
    hide OpenPrice;
    hide Put;
    hide WithFee;
    RoomIgnoresBar(p, st, a, b);
    OpenPriceSame(p, a, b, s);
    assert a.bars[s].open == b.bars[s].open && a.time == b.time;
  }

  lemma FillIgnoresBar(p: Params, st: State, item: (Symbol, Proposal), a: Snapshot, b: Snapshot)
    requires SameOpens(a, b)
    ensures FillOne(p, a)(st, item) == FillOne(p, b)(st, item)
  {
    hide Execute;
    hide Remove;
    assert item.0 in a.bars.Keys <==> item.0 in b.bars.Keys;
    if item.0 in a.bars {
      ExecuteIgnoresBar(p, st, item.0, item.1, a, b);
    }
  }

  lemma {:induction false} FillFoldIgnoresBar(p: Params, st: State,
                                              items: seq<(Symbol, Proposal)>, a: Snapshot, b: Snapshot, n: nat)
    requires SameOpens(a, b) && n <= |items|
    ensures Fold(FillOne(p, a), st, items[..n]) == Fold(FillOne(p, b), st, items[..n])
  {
    hide Fold;
    hide FillOne;
    FoldEnds(FillOne(p, a), st, items);
    FoldEnds(FillOne(p, b), st, items);
    if n > 0 {
      FillFoldIgnoresBar(p, st, items, a, b, n - 1);
      FoldStep(FillOne(p, a), st, items, n - 1);
      FoldStep(FillOne(p, b), st, items, n - 1);
      FillIgnoresBar(p, Fold(FillOne(p, a), st, items[..n - 1]), items[n - 1], a, b);
    }
  }

  lemma {:induction false} KeyFoldsIgnoreBar(p: Params, st: State, ks: seq<Symbol>, a: Snapshot, b: Snapshot, n: nat)
    requires SameOpens(a, b) && n <= |ks|
    ensures Fold(ExpireOne(a), st, ks[..n]) == Fold(ExpireOne(b), st, ks[..n])
    ensures Fold(GapStopOne(p, a), st, ks[..n]) == Fold(GapStopOne(p, b), st, ks[..n])
  {
    hide Fold;
    hide Close;
    FoldEnds(ExpireOne(a), st, ks);
    FoldEnds(ExpireOne(b), st, ks);
    FoldEnds(GapStopOne(p, a), st, ks);
    FoldEnds(GapStopOne(p, b), st, ks);
    if n > 0 {
      KeyFoldsIgnoreBar(p, st, ks, a, b, n - 1);
      FoldStep(ExpireOne(a), st, ks, n - 1);
      FoldStep(ExpireOne(b), st, ks, n - 1);
      FoldStep(GapStopOne(p, a), st, ks, n - 1);
      FoldStep(GapStopOne(p, b), st, ks, n - 1);
    }
  }

  /** Everything executed at the open of a bar depends only on the past and on the bar's opens. */
  lemma OpeningIgnoresBar(p: Params, st: State, a: Snapshot, b: Snapshot)
    requires SameOpens(a, b)
    ensures OpenPhase(p, st, a) == OpenPhase(p, st, b)
  {
    hide Fold;
    hide ExpireOne;
    hide GapStopOne;
    hide FillOne;
    var ks := st.pending.order;
    KeyFoldsIgnoreBar(p, st, ks, a, b, |ks|);
    FoldEnds(ExpireOne(a), st, ks);
    FoldEnds(ExpireOne(b), st, ks);
    var s1 := Fold(ExpireOne(a), st, ks);
    var ps := s1.positions.order;
    KeyFoldsIgnoreBar(p, s1, ps, a, b, |ps|);
    FoldEnds(GapStopOne(p, a), s1, ps);
    FoldEnds(GapStopOne(p, b), s1, ps);
    var s2 := Fold(GapStopOne(p, a), s1, ps);
    var items := Entries(s2.pending);
    FillFoldIgnoresBar(p, s2, items, a, b, |items|);
    FoldEnds(FillOne(p, a), s2, items);
    FoldEnds(FillOne(p, b), s2, items);
  }
}
