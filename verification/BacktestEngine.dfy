/** The replay as the program runs it: one object whose cash, positions, proposals, trades, histories
    and lockdown flag are updated bar by bar. Each method computes the phase that specifies it. */
module BacktestEngine {
  import opened OrderedDict
  import opened BacktestModel
  import opened BacktestProtocol

  class Replay {
    const p: Params
    var cash: real
    var positions: Dict<Position>
    var pending: Dict<Proposal>
    var trades: seq<Trade>
    var histories: map<Symbol, seq<Point>>
    var benchmarks: seq<real>
    var lockdown: bool
    ghost var entered: seq<(Symbol, Time)>

    ghost function View(): State
      reads this
    {
      State(cash, positions, pending, trades, histories, benchmarks, lockdown, entered)
    }

    constructor (params: Params)
      ensures p == params && View() == Start(params)
    {
      p := params;
      cash := params.initialCash;
      positions, pending := Empty(), Empty();
      trades, histories, benchmarks, lockdown := [], map[], [], true;
      entered := [];
    }

    /** `close_position` */
    method ClosePosition(s: Symbol, px: real, t: Time, reason: Reason)
      requires s in positions.items
      modifies this
      ensures View() == Close(p, old(View()), s, px, t, reason)
    {
      var pos := positions.items[s];
      positions := Remove(positions, s);
      var exit := ExitPrice(p, px);
      var gross := pos.quantity * exit;
      var exitFee := gross * p.fee;
      var net := gross - exitFee;
      assert net == Proceeds(p, pos, px);
      cash := cash + net;
      trades := trades + [Trade(pos, t, exit, net - WithFee(p, pos.notional), reason)];
    }

    /** Equity marked at the open, basket notional at fill prices, and basket risk. */
    method Measure(snap: Snapshot) returns (room: Room)
      ensures room == RoomOf(p, View(), snap)
    {
      var equity, notional, risk := 0.0, 0.0, 0.0;
      var i := |positions.order|;
      OrderPresent(positions);
      while i > 0
        invariant 0 <= i <= |positions.order|
        invariant equity == SumOver(Mark(snap, AtOpen()), positions.order[i..], positions.items)
        invariant notional == SumOver(Mark(snap, AtFill(p)), positions.order[i..], positions.items)
        invariant risk == SumOver(Risk(), positions.order[i..], positions.items)
      {
        i := i - 1;
        assert positions.order[i..][1..] == positions.order[i + 1..];
        var pos := positions.items[positions.order[i]];
        if pos.symbol in snap.bars {
          var open := snap.bars[pos.symbol].open;
          equity := pos.quantity * open + equity;
          notional := pos.quantity * (open * (1.0 + p.slippage)) + notional;
        } else {
          equity := pos.notional + equity;
          notional := pos.notional + notional;
        }
        risk := pos.initialRisk + risk;
      }
      assert positions.order[0..] == positions.order;
      room := Room(cash + equity, cash, notional, risk);
    }

    method Enter(s: Symbol, signalTime: Time, stop: real, snap: Snapshot)
      requires s in snap.bars
      modifies this
      ensures View() == FillEntry(p, old(View()), s, signalTime, stop, snap)
    {
      hide RoomOf;
      hide EntryNotional;
      var openPx := OpenPrice(p, snap.bars[s]);
      if lockdown || s in positions.items || |positions.order| >= p.maxAssets || openPx <= stop {
        return;
      }
      var room := Measure(snap);
      var notional := EntryNotional(p, room, openPx, stop);
      if notional <= 0.0 {
        return;
      }
      cash := cash - WithFee(p, notional);
      positions := Put(positions, s, NewLot(s, signalTime, snap.time, openPx, stop, notional));
      entered := entered + [(s, snap.time)];
    }

    method AddTo(s: Symbol, trailStop: real, snap: Snapshot)
      requires s in snap.bars
      modifies this
      ensures View() == FillAdd(p, old(View()), s, trailStop, snap)
    {
      hide RoomOf;
      hide AddNotional;
      if s in positions.items {
        var openPx := OpenPrice(p, snap.bars[s]);
        var pos := positions.items[s];
        var newStop := Max(pos.stop, trailStop);
        var room := Measure(snap);
        var amount := AddNotional(p, room, pos, openPx, newStop);
        if amount > 0.0 && openPx > pos.entry {
          cash := cash - WithFee(p, amount);
          positions := Put(positions, s, Enlarged(pos, amount, openPx, newStop));
        }
      }
    }

    method ExpirePending(snap: Snapshot)
      modifies this
      ensures View() == Fold(ExpireOne(snap), old(View()), old(pending.order))
    {
      hide Fold;
      var keys := pending.order;
      FoldEnds(ExpireOne(snap), View(), keys);
      for i := 0 to |keys|
        invariant View() == Fold(ExpireOne(snap), old(View()), keys[..i])
      {
        FoldStep(ExpireOne(snap), old(View()), keys, i);
        var s := keys[i];
        if s in pending.items && s !in snap.bars && !pending.items[s].Exit? {
          pending := Remove(pending, s);
        }
      }
      FoldEnds(ExpireOne(snap), old(View()), keys);
    }

    method GapStops(snap: Snapshot)
      modifies this
      ensures View() == Fold(GapStopOne(p, snap), old(View()), old(positions.order))
    {
      hide Fold;
      hide Close;
      var keys := positions.order;
      FoldEnds(GapStopOne(p, snap), View(), keys);
      for i := 0 to |keys|
        invariant View() == Fold(GapStopOne(p, snap), old(View()), keys[..i])
      {
        FoldStep(GapStopOne(p, snap), old(View()), keys, i);
        var s := keys[i];
        if s in positions.items && s in snap.bars && snap.bars[s].open <= positions.items[s].stop {
          ClosePosition(s, snap.bars[s].open, snap.time, GapStop);
        }
      }
    }

    method ExecuteProposal(s: Symbol, proposal: Proposal, snap: Snapshot)
      modifies this
      ensures View() == FillOne(p, snap)(old(View()), (s, proposal))
    {
      hide FillEntry;
      hide FillAdd;
      hide Close;
      if s in snap.bars {
        match proposal {
          case Exit(_) =>
            if s in positions.items {
              ClosePosition(s, snap.bars[s].open, snap.time, SidelineLockdown);
            }
          case Entry(signalTime, stop) =>
            Enter(s, signalTime, stop, snap);
          case Add(_, trailStop) =>
            AddTo(s, trailStop, snap);
        }
        pending := Remove(pending, s);
      }
    }

    method ExecutePending(snap: Snapshot)
      modifies this
      ensures View() == Fold(FillOne(p, snap), old(View()), Entries(old(pending)))
    {
      hide Fold;
      hide FillOne;
      hide Entries;
      var items := Entries(pending);
      FoldEnds(FillOne(p, snap), View(), items);
      for i := 0 to |items|
        invariant View() == Fold(FillOne(p, snap), old(View()), items[..i])
      {
        FoldStep(FillOne(p, snap), old(View()), items, i);
        ExecuteProposal(items[i].0, items[i].1, snap);
      }
    }

    method IntrabarStops(snap: Snapshot)
      modifies this
      ensures View() == Fold(StopOne(p, snap), old(View()), old(positions.order))
    {
      hide Fold;
      hide Close;
      var keys := positions.order;
      FoldEnds(StopOne(p, snap), View(), keys);
      for i := 0 to |keys|
        invariant View() == Fold(StopOne(p, snap), old(View()), keys[..i])
      {
        FoldStep(StopOne(p, snap), old(View()), keys, i);
        var s := keys[i];
        if s in positions.items && s in snap.bars && snap.bars[s].low <= positions.items[s].stop {
          ClosePosition(s, positions.items[s].stop, snap.time, Stop);
        }
      }
    }

    method Lockdown(snap: Snapshot)
      modifies this
      ensures View() == LockdownPhase(p, old(View()), snap)
    {
      hide Fold;
      hide Locked;
      benchmarks := benchmarks + [snap.benchmark];
      lockdown := Locked(p, benchmarks);
      if lockdown {
        ghost var s1 := View();
        var keys := positions.order;
        FoldEnds(ExitNext(snap), s1, keys);
        for i := 0 to |keys|
          invariant View() == Fold(ExitNext(snap), s1, keys[..i])
        {
          FoldStep(ExitNext(snap), s1, keys, i);
          pending := Put(pending, keys[i], Exit(snap.time));
        }
      }
    }

    method RatchetStops(snap: Snapshot)
      modifies this
      ensures View() == Fold(RatchetOne(p, snap), old(View()), old(positions.order))
    {
      hide Fold;
      hide StopLevel;
      var keys := positions.order;
      FoldEnds(RatchetOne(p, snap), View(), keys);
      for i := 0 to |keys|
        invariant View() == Fold(RatchetOne(p, snap), old(View()), keys[..i])
      {
        FoldStep(RatchetOne(p, snap), old(View()), keys, i);
        var s := keys[i];
        if s in positions.items && s in snap.bars {
          var pos := positions.items[s];
          positions := Put(positions, s, pos.(stop := Max(pos.stop, StopLevel(p, snap.bars[s]))));
        }
      }
    }

    method ProposeAdditions(snap: Snapshot)
      modifies this
      ensures View() == Fold(ProposeAddOne(p, snap), old(View()), old(positions.order))
    {
      hide Fold;
      var keys := positions.order;
      FoldEnds(ProposeAddOne(p, snap), View(), keys);
      for i := 0 to |keys|
        invariant View() == Fold(ProposeAddOne(p, snap), old(View()), keys[..i])
      {
        FoldStep(ProposeAddOne(p, snap), old(View()), keys, i);
        var s := keys[i];
        if s in positions.items && s in snap.bars && positions.items[s].additions < p.maxAdditions {
          var pos, bar := positions.items[s], snap.bars[s];
          var h := History(pos.symbol);
          var prior := if h == [] then pos.entry else h[|h| - 1].close;
          if bar.close > pos.entry && bar.close > prior && bar.flow > p.minFlow && !lockdown {
            pending := SetDefault(pending, s, Add(snap.time, pos.stop));
          }
        }
      }
    }

    /** The loop over the peers of `pairwise_correlation_ok`; it stops at the first failing pair. */
    method PairwiseCorrelationOk(s: Symbol, t: Time) returns (ok: bool)
      ensures ok == CorrelationOk(p, View(), s, t)
    {
      hide Before;
      hide HistoryOf;
      var peers := positions.order + pending.order;
      var mine := Before(History(s), t);
      for i := 0 to |peers|
        invariant forall j :: 0 <= j < i && Live(View(), peers[j]) && peers[j] != s ==>
                    p.pairOk(mine, Before(HistoryOf(View(), peers[j]), t))
      {
        var peer := peers[i];
        var live := peer in positions.items || (peer in pending.items && pending.items[peer].Entry?);
        if live && peer != s && !p.pairOk(mine, Before(History(peer), t)) {
          assert peer in positions.items.Keys + pending.items.Keys;
          return false;
        }
      }
      forall peer | peer in positions.items.Keys + pending.items.Keys && Live(View(), peer) && peer != s
        ensures p.pairOk(mine, Before(HistoryOf(View(), peer), t))
      {
        assert peer in peers;
      }
      ok := true;
    }

    function History(s: Symbol): (h: seq<Point>)
      reads this
      ensures h == HistoryOf(View(), s)
    {
      if s in histories then histories[s] else []
    }

    method FormSignals(snap: Snapshot)
      modifies this
      ensures View() == Fold(SignalOne(p, snap), old(View()), snap.order)
    {
      hide Fold;
      hide CorrelationOk;
      hide StopLevel;
      FoldEnds(SignalOne(p, snap), View(), snap.order);
      for i := 0 to |snap.order|
        invariant View() == Fold(SignalOne(p, snap), old(View()), snap.order[..i])
      {
        FoldStep(SignalOne(p, snap), old(View()), snap.order, i);
        var s := snap.order[i];
        assert s in snap.bars;
        var bar := snap.bars[s];
        var hist := History(s) + [Point(snap.time, bar.close, bar.volume, bar.low, bar.flow)];
        histories := histories[s := hist];
        if !lockdown && s !in positions.items && |hist| >= p.warmup && p.signal(hist) && BenchmarkUp(benchmarks) {
          var ok := PairwiseCorrelationOk(s, snap.time);
          var stop := StopLevel(p, bar);
          if ok && 0.0 < stop < bar.close {
            pending := Put(pending, s, Entry(snap.time, stop));
          }
        }
      }
    }

    method ReplayBar(snap: Snapshot)
      modifies this
      ensures View() == BarStep(p, old(View()), snap)
    {
      hide Fold;
      hide LockdownPhase;
      ExpirePending(snap);
      GapStops(snap);
      ExecutePending(snap);
      IntrabarStops(snap);
      Lockdown(snap);
      RatchetStops(snap);
      ProposeAdditions(snap);
      FormSignals(snap);
    }

    method Liquidate(last: Snapshot)
      modifies this
      ensures View() == Liquidated(p, old(View()), last)
    {
      hide Fold;
      hide Close;
      var keys := positions.order;
      FoldEnds(LiquidateOne(p, last), View(), keys);
      for i := 0 to |keys|
        invariant View() == Fold(LiquidateOne(p, last), old(View()), keys[..i])
      {
        FoldStep(LiquidateOne(p, last), old(View()), keys, i);
        var s := keys[i];
        if s in positions.items {
          var h := History(s);
          var px := if s in last.bars then last.bars[s].close else if h == [] then 0.0 else h[|h| - 1].close;
          ClosePosition(s, px, last.time, EndOfData);
        }
      }
    }
  }

  /** `run_backtest`: the final equity and the trades. */
  method RunBacktest(p: Params, snaps: seq<Snapshot>) returns (finalEquity: real, trades: seq<Trade>)
    requires snaps != []
    ensures finalEquity == Backtest(p, snaps).cash && trades == Backtest(p, snaps).trades
  {
    hide BarStep;
    hide Liquidated;
    var replay := new Replay(p);
    for i := 0 to |snaps|
      invariant replay.p == p && replay.View() == Run(p, snaps[..i])
      modifies replay
    {
      assert snaps[..i + 1][..i] == snaps[..i];
      replay.ReplayBar(snaps[i]);
    }
    assert snaps[..|snaps|] == snaps;
    replay.Liquidate(snaps[|snaps| - 1]);
    finalEquity, trades := replay.cash, replay.trades;
    assert replay.View() == Backtest(p, snaps);
  }
}
