/** A replay of seven bars in which a stop is triggered from above the high of its bar and the exit is recorded below
    the low: one symbol, six rising benchmarks, a signal on the sixth bar, and a lower open on the seventh. */
module BacktestTrigger {
  import opened OrderedDict
  import opened BacktestModel
  import opened BacktestBooks
  import opened BacktestProtocol
  import opened BacktestTheorems
  import opened BacktestSignals
  import opened BacktestFills
  import opened BacktestPrices

  const GOLD: Symbol := 1

  /** The cross of a one-bar over a two-bar mean with a volume above the mean of the two bars before. */
  predicate CrossUp(h: seq<Point>) {
    var n := |h|;
    && n >= 3
    && h[n - 2].close <= (h[n - 3].close + h[n - 2].close) / 2.0
    && h[n - 1].close > (h[n - 2].close + h[n - 1].close) / 2.0
    && h[n - 1].volume > (h[n - 3].volume + h[n - 2].volume) / 2.0
  }

  /** Ten per cent slippage, no fee and no stop buffer. */
  function Setting(): Params {
    Params(1000.0, 3, 1, 1.0, 1.0, 1.0, 1.0, 0.0, 0.0, 0.1, 0.65, 0.0, 0, CrossUp,
           (a: seq<Point>, b: seq<Point>) => false)
  }

  function BarAt(t: nat): Bar {
    if t < 5 then Bar(100.0, 100.0, 100.0, 100.0, 1.0, 0.0)
    else if t == 5 then Bar(100.0, 101.0, 100.0, 101.0, 2.0, 0.0)
    else Bar(95.0, 96.0, 94.0, 95.0, 1.0, 0.0)
  }

  function SnapAt(t: nat): Snapshot {
    Snapshot(t, [GOLD], map[GOLD := BarAt(t)], 1.0 + t as real)
  }

  function Tape(n: nat): (snaps: seq<Snapshot>)
    ensures |snaps| == n && forall t :: 0 <= t < n ==> snaps[t] == SnapAt(t)
  {
    if n == 0 then [] else Tape(n - 1) + [SnapAt(n - 1)]
  }

  function PointAt(t: nat): Point {
    var bar := BarAt(t);
    Point(t, bar.close, bar.volume, bar.low, bar.flow)
  }

  lemma FoldOnce<S, K>(step: (S, K) -> S, s: S, k: K)
    ensures Fold(step, s, []) == s && Fold(step, s, [k]) == step(s, k)
  {
    assert [k][..0] == [];
  }

  /** A bar that finds nothing open and nothing pending. */
  lemma IdleBar(p: Params, st: State, snap: Snapshot)
    requires st.positions == Empty() && st.pending == Empty() && snap.order == [GOLD] && GOLD in snap.bars
    ensures var b := st.benchmarks + [snap.benchmark];
            BarStep(p, st, snap)
            == Signalled(p, st.(benchmarks := b, lockdown := Locked(p, b)), GOLD, snap.bars[GOLD], snap.time)
  {
    hide Signalled;
    hide Locked;
    hide StopOne;
    hide FillOne;
    hide GapStopOne;
    hide ExpireOne;
    hide RatchetOne;
    hide ProposeAddOne;
    hide ExitNext;
    var b := st.benchmarks + [snap.benchmark];
    var s5 := st.(benchmarks := b, lockdown := Locked(p, b));
    assert Entries(st.pending) == [];
    FoldOnce(SignalOne(p, snap), s5, GOLD);
  }

  /** The benchmarks of the first n bars. */
  ghost function Levels(n: nat): (b: seq<real>)
    ensures |b| == n && forall i :: 0 <= i < n ==> b[i] == 1.0 + i as real
  {
    if n == 0 then [] else Levels(n - 1) + [SnapAt(n - 1).benchmark]
  }

  /** After n bars with nothing open yet. */
  ghost predicate Waiting(st: State, n: nat) {
    st.positions == Empty() && st.cash == 1000.0 && st.benchmarks == Levels(n)
  }

  lemma IdleLocked(p: Params, st: State, snap: Snapshot)
    requires st.positions == Empty() && st.pending == Empty() && snap.order == [GOLD] && GOLD in snap.bars
    requires |st.benchmarks| < 5
    ensures var r := BarStep(p, st, snap);
            && r.positions == Empty() && r.pending == Empty() && r.cash == st.cash
            && r.benchmarks == st.benchmarks + [snap.benchmark]
  {
    hide BarStep;
    hide HistoryOf;
    hide Consistency;
    IdleBar(p, st, snap);
  }

  lemma TapeStep(n: nat)
    ensures Run(Setting(), Tape(n + 1)) == BarStep(Setting(), Run(Setting(), Tape(n)), SnapAt(n))
  {
    hide BarStep;
    assert Tape(n + 1)[..n] == Tape(n);
  }

  lemma {:induction false} WaitsForFive(n: nat)
    requires n <= 5
    ensures Waiting(Run(Setting(), Tape(n)), n) && Run(Setting(), Tape(n)).pending == Empty()
  {
    hide BarStep;
    hide Run;
    hide BarAt;
    if n == 0 {
      NothingYet();
    } else {
      WaitsForFive(n - 1);
      TapeStep(n - 1);
      IdleLocked(Setting(), Run(Setting(), Tape(n - 1)), SnapAt(n - 1));
    }
  }

  lemma NothingYet()
    ensures Run(Setting(), Tape(0)) == Start(Setting())
  {
  }

  lemma {:induction false} RisingOnly(b: seq<real>)
    requires b != [] && forall i, j :: 0 <= i < j < |b| ==> b[i] < b[j]
    ensures Rises(b) == |b| - 1 && Falls(b) == 0
  {
    if |b| > 1 {
      RisingOnly(b[..|b| - 1]);
    }
  }

  lemma {:induction false} TapePoints(n: nat)
    ensures |Points(Tape(n), GOLD)| == n && forall t :: 0 <= t < n ==> Points(Tape(n), GOLD)[t] == PointAt(t)
  {
    hide NewPoint;
    hide Tape;
    hide SnapAt;
    hide PointAt;
    if n > 0 {
      TapePoints(n - 1);
      assert Tape(n)[..n - 1] == Tape(n - 1);
      RecordedPoint(n - 1);
    }
  }

  lemma RecordedPoint(t: nat)
    ensures NewPoint(SnapAt(t), GOLD) == [PointAt(t)]
  {
    hide BarAt;
  }

  lemma Unlocked(n: nat)
    requires n == 6
    ensures !Locked(Setting(), Levels(n)) && BenchmarkUp(Levels(n))
  {
    hide Levels;
    RisingOnly(Levels(n));
  }

  lemma CrossesOnSixth(h: seq<Point>, n: nat)
    requires n == 5 && h == Points(Tape(n), GOLD)
    ensures |h + [PointAt(n)]| == 6 && CrossUp(h + [PointAt(n)])
  {
    TapePoints(n);
    hide Tape;
    hide Points;
    assert h[3] == PointAt(3) && h[4] == PointAt(4);
  }

  lemma NobodyElse(p: Params, st: State, s: Symbol, t: Time)
    requires st.positions == Empty() && st.pending == Empty()
    ensures CorrelationOk(p, st, s, t)
  {
  }

  lemma Proposes(p: Params, st: State, s: Symbol, bar: Bar, t: Time)
    requires Signals(p, Recorded(st, s, bar, t), s, bar, t)
    ensures var r := Signalled(p, st, s, bar, t);
            && r.pending == Put(st.pending, s, Entry(t, StopLevel(p, bar))) && r.positions == st.positions
            && r.cash == st.cash && r.benchmarks == st.benchmarks && r.lockdown == st.lockdown
  {
    hide Signals;
    hide StopLevel;
  }

  /** What the sixth bar does to a state that has waited for five. */
  lemma SignalFrom(st: State, snap: Snapshot, n: nat)
    requires n == 5 && Waiting(st, n) && st.pending == Empty() && snap == SnapAt(n)
    requires HistoryOf(st, GOLD) == Points(Tape(n), GOLD)
    ensures var r := BarStep(Setting(), st, snap);
            Waiting(r, n + 1) && !r.lockdown && r.pending == Put(Empty(), GOLD, Entry(n, 100.0))
  {
    hide Points;
    hide Tape;
    var p, bar := Setting(), BarAt(n);
    assert Levels(n + 1) == st.benchmarks + [snap.benchmark];
    hide Levels;
    var mid := st.(benchmarks := Levels(n + 1), lockdown := false);
    var r := Recorded(mid, GOLD, bar, n);
    assert HistoryOf(r, GOLD) == HistoryOf(st, GOLD) + [PointAt(n)];
    SignalsThere(r, n);
    StopOnSixth();
    hide BarStep;
    hide BarAt;
    hide Signalled;
    hide Locked;
    hide Signals;
    hide StopLevel;
    hide Recorded;
    hide Setting;
    IdleBar(p, st, snap);
    Unlocked(n + 1);
    Proposes(p, mid, GOLD, bar, n);
  }

  lemma StopOnSixth()
    ensures StopLevel(Setting(), BarAt(5)) == 100.0 && BarAt(5).close == 101.0
  {
  }

  lemma SignalsThere(r: State, n: nat)
    requires n == 5
    requires r.positions == Empty() && r.pending == Empty() && !r.lockdown && r.benchmarks == Levels(n + 1)
    requires HistoryOf(r, GOLD) == Points(Tape(n), GOLD) + [PointAt(n)]
    ensures Signals(Setting(), r, GOLD, BarAt(n), n)
  {
    hide Points;
    hide HistoryOf;
    hide CrossUp;
    hide BenchmarkUp;
    hide CorrelationOk;
    hide Levels;
    hide Tape;
    hide BarAt;
    hide StopLevel;
    CrossesOnSixth(Points(Tape(n), GOLD), n);
    Unlocked(n + 1);
    NobodyElse(Setting(), r, GOLD, n);
    StopOnSixth();
  }

  /** The sixth bar proposes an entry with its low as stop. */
  lemma SignalOnSixth(n: nat)
    requires n == 5
    ensures var st := Run(Setting(), Tape(n + 1));
            Waiting(st, n + 1) && !st.lockdown && st.pending == Put(Empty(), GOLD, Entry(n, 100.0))
  {
    hide *;
    WaitsForFive(n);
    TapeStep(n);
    HistoryIsPoints(Setting(), Tape(n), GOLD);
    SignalFrom(Run(Setting(), Tape(n)), SnapAt(n), n);
  }

  /** The opening of a bar with nothing open and one entry pending. */
  lemma OneEntry(p: Params, st: State, snap: Snapshot, t: Time, stop: real)
    requires st.positions == Empty() && st.pending == Put(Empty(), GOLD, Entry(t, stop)) && GOLD in snap.bars
    ensures OpenPhase(p, st, snap).positions == FillEntry(p, st, GOLD, t, stop, snap).positions
  {
    hide FillEntry;
    FoldOnce(ExpireOne(snap), st, GOLD);
    FoldOnce(GapStopOne(p, snap), st, GOLD);
    assert Entries(st.pending) == [(GOLD, Entry(t, stop))];
    FoldOnce(FillOne(p, snap), st, (GOLD, Entry(t, stop)));
    hide Fold;
  }

  lemma FilledLot(p: Params, st: State, snap: Snapshot, t: Time, stop: real)
    requires GOLD in snap.bars && EntryFills(p, st, GOLD, stop, snap)
    ensures var d := FillEntry(p, st, GOLD, t, stop, snap).positions;
            && GOLD in d.items && d.items[GOLD].symbol == GOLD && d.items[GOLD].stop == stop
            && d.items[GOLD].entryTime == snap.time
  {
    hide FillEntry;
    hide EntryNotional;
    hide RoomOf;
    hide OpenPrice;
    FillEntryIs(p, st, GOLD, t, stop, snap);
  }

  lemma FillsThere(st: State, snap: Snapshot, n: nat)
    requires n == 6 && Waiting(st, n) && !st.lockdown && snap == SnapAt(n)
    ensures GOLD in snap.bars && EntryFills(Setting(), st, GOLD, 100.0, snap) && snap.time == n
  {
    hide Levels;
    var p := Setting();
    assert MarkEquity(st, snap) == 1000.0 && BasketNotional(p, st, snap) == 0.0 && BasketRisk(st) == 0.0;
    assert OpenPrice(p, snap.bars[GOLD]) == 104.5;
    var room := RoomOf(p, st, snap);
    assert ByRisk(1000.0, 104.5, 4.5) > 0.0 && ByCash(p, room.cash) == 1000.0;
  }

  /** The lot filled at the open of bar n. */
  ghost predicate FilledAt(d: Dict<Position>, n: nat) {
    GOLD in d.items && d.items[GOLD].symbol == GOLD && d.items[GOLD].stop == 100.0 && d.items[GOLD].entryTime == n
  }

  lemma FillFrom(st: State, snap: Snapshot, n: nat)
    requires n == 6 && Waiting(st, n) && !st.lockdown && snap == SnapAt(n)
    requires st.pending == Put(Empty(), GOLD, Entry(n - 1, 100.0))
    ensures FilledAt(OpenPhase(Setting(), st, snap).positions, n)
  {
    hide OpenPhase;
    hide FillEntry;
    hide EntryFills;
    hide Levels;
    hide SnapAt;
    hide Setting;
    FillsThere(st, snap, n);
    OneEntry(Setting(), st, snap, n - 1, 100.0);
    FilledLot(Setting(), st, snap, n - 1, 100.0);
  }

  /** The seventh bar opens below the stop and yet fills the entry, because the fill price takes slippage. */
  lemma FilledOnSeventh(n: nat)
    requires n == 6
    ensures FilledAt(OpenPhase(Setting(), Run(Setting(), Tape(n)), SnapAt(n)).positions, n)
  {
    hide *;
    SignalOnSixth(n - 1);
    FillFrom(Run(Setting(), Tape(n)), SnapAt(n), n);
  }

  lemma LevelsOnSeventh(n: nat)
    requires n == 6
    ensures var p, bar := Setting(), BarAt(n);
            && bar.low == 94.0 && bar.high == 96.0 && OpenPrice(p, bar) == 104.5 && ExitPrice(p, 100.0) == 90.0
    ensures GOLD in SnapAt(n).bars && SnapAt(n).bars[GOLD] == BarAt(n) && SnapAt(n).time == n
  {
  }

  /** Where the trade of the stop is recorded. */
  ghost predicate StoppedAt(trades: seq<Trade>, i: nat, n: nat) {
    && i < |trades| && trades[i].reason == Stop && trades[i].lot.symbol == GOLD && trades[i].lot.stop == 100.0
    && trades[i].lot.entryTime == trades[i].exitTime == n && trades[i].exit == 90.0
  }

  lemma StopTradeIs(p: Params, pos: Position, snap: Snapshot)
    ensures var tr := StopTrade(p, pos, snap);
            tr.reason == Stop && tr.lot == pos && tr.exitTime == snap.time && tr.exit == ExitPrice(p, pos.stop)
  {
  }

  lemma StoppedOnSeventh(n: nat) returns (i: nat)
    requires n == 6
    ensures StoppedAt(Run(Setting(), Tape(n + 1)).trades, i, n)
  {
    hide OpenPhase;
    hide BarStep;
    hide Run;
    hide Tape;
    hide SnapAt;
    hide BarAt;
    hide Setting;
    hide StopTrade;
    hide ExitPrice;
    hide OpenPrice;
    FilledOnSeventh(n);
    LevelsOnSeventh(n);
    TapeStep(n);
    StoppedIff(Setting(), Tape(n), SnapAt(n), GOLD);
    var trades := Run(Setting(), Tape(n + 1)).trades;
    var pos := OpenPhase(Setting(), Run(Setting(), Tape(n)), SnapAt(n)).positions.items[GOLD];
    StopTradeIs(Setting(), pos, SnapAt(n));
    i :| 0 <= i < |trades| && trades[i] == StopTrade(Setting(), pos, SnapAt(n));
  }

  /** The stop at 100 is triggered on a bar whose high is 96; the exit is recorded at 90, below its low of 94. */
  lemma TriggerAboveHigh(snaps: seq<Snapshot>, n: nat) returns (i: nat)
    requires n == 6 && snaps == Tape(n + 1)
    ensures Increasing(snaps) && i < |Backtest(Setting(), snaps).trades| && GOLD in snaps[n].bars
    ensures var tr, bar := Backtest(Setting(), snaps).trades[i], snaps[n].bars[GOLD];
            && tr.reason == Stop && tr.lot.symbol == GOLD && tr.lot.entryTime == tr.exitTime == snaps[n].time
            && tr.exit < bar.low <= bar.high < tr.lot.stop < OpenPrice(Setting(), bar)
  {
    hide Run;
    hide Backtest;
    hide BarAt;
    hide SnapAt;
    hide Tape;
    hide OpenPrice;
    hide Setting;
    TapeRises(n + 1);
    LevelsOnSeventh(n);
    i := StoppedOnSeventh(n);
    LiquidatedKeeps(Setting(), snaps, i);
  }

  lemma TapeRises(n: nat)
    ensures Increasing(Tape(n))
  {
    hide Tape;
    hide BarAt;
  }

  lemma LiquidatedKeeps(p: Params, snaps: seq<Snapshot>, i: nat)
    requires snaps != [] && i < |Run(p, snaps).trades|
    ensures i < |Backtest(p, snaps).trades| && Backtest(p, snaps).trades[i] == Run(p, snaps).trades[i]
  {
    hide Run;
    hide Fold;
    var st, last := Run(p, snaps), snaps[|snaps| - 1];
    LiquidateFoldTrades(p, st, last, |st.positions.order|);
    FoldEnds(LiquidateOne(p, last), st, st.positions.order);
  }
}
