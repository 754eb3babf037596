/** The bar-by-bar replay of scripts/biberion_shotgun_backtest.py, phase by phase. */
module BacktestModel {
  import opened OrderedDict

  type Symbol = Key
  type Time = int

  /** Smallest exit price: the double-precision epsilon, 2^-52. */
  const EPS: real := 1.0 / 4503599627370496.0

  datatype Bar = Bar(open: real, high: real, low: real, close: real, volume: real, flow: real)

  predicate BarOk(b: Bar) {
    && 0.0 < b.low && 0.0 <= b.volume
    && b.low <= b.open <= b.high && b.low <= b.close <= b.high
  }

  /** All bars of one timestamp; `order` lists the symbols in ascending order. A missing flow proxy is 0. */
  datatype RawSnapshot = Snapshot(time: Time, order: seq<Symbol>, bars: map<Symbol, Bar>, benchmark: real) {
    ghost predicate Valid() {
      && (forall i, j :: 0 <= i < j < |order| ==> order[i] < order[j])
      && (forall s :: s in order <==> s in bars)
      && (forall s :: s in bars ==> BarOk(bars[s]))
      && 0.0 < benchmark
    }
  }

  type Snapshot = s: RawSnapshot | s.Valid() ghost witness Snapshot(0, [], map[], 1.0)

  datatype Position = Position(symbol: Symbol, signalTime: Time, entryTime: Time, entry: real, stop: real,
                               quantity: real, notional: real, initialRisk: real, additions: nat)

  datatype Proposal =
    | Entry(signalTime: Time, stop: real)
    | Add(signalTime: Time, trailStop: real)
    | Exit(signalTime: Time)

  datatype Reason = GapStop | SidelineLockdown | Stop | EndOfData

  /** A closed trade, with the position as it stood when it was closed. */
  datatype Trade = Trade(lot: Position, exitTime: Time, exit: real, pnl: real, reason: Reason)

  datatype Point = Point(time: Time, close: real, volume: real, low: real, flow: real)

  /** `signal` is the moving-average cross with a volume surge, a function of the symbol's own history;
      `pairOk` is the correlation test on two histories. Neither is interpreted. */
  datatype RawParams = Params(
    initialCash: real, warmup: nat, maxAssets: nat, basketFraction: real, assetFraction: real,
    assetRiskFraction: real, basketRiskFraction: real, buffer: real, fee: real, slippage: real,
    directionalityMin: real, minFlow: real, maxAdditions: nat,
    signal: seq<Point> -> bool, pairOk: (seq<Point>, seq<Point>) -> bool)
  {
    predicate Valid() {
      && initialCash > 0.0 && maxAssets >= 1
      && 0.0 < basketFraction <= 1.0 && 0.0 < assetFraction <= basketFraction
      && 0.0 < assetRiskFraction && 0.0 < basketRiskFraction
      && 0.0 <= buffer && 0.0 <= fee && 0.0 <= slippage
      && 0.0 <= directionalityMin <= 1.0 && 0.0 <= minFlow
    }
  }

  type Params = p: RawParams | p.Valid()
    witness Params(1.0, 0, 1, 1.0, 1.0, 1.0, 1.0, 0.0, 0.0, 0.0, 0.0, 0.0, 0, (h: seq<Point>) => false,
                   (a: seq<Point>, b: seq<Point>) => false)

  /** `entered` is an auxiliary log of (symbol, entry time), one item for each entry filled. */
  datatype State = State(cash: real, positions: Dict<Position>, pending: Dict<Proposal>, trades: seq<Trade>,
                         histories: map<Symbol, seq<Point>>, benchmarks: seq<real>, lockdown: bool,
                         entered: seq<(Symbol, Time)>)

  function Start(p: Params): State {
    State(p.initialCash, Empty(), Empty(), [], map[], [], true, [])
  }

  // ---------------------------------------------------------------- small helpers

  function Fold<S, K>(step: (S, K) -> S, s: S, ks: seq<K>): S {
    if ks == [] then s else step(Fold(step, s, ks[..|ks| - 1]), ks[|ks| - 1])
  }

  function Max(a: real, b: real): real { if a >= b then a else b }
  function Min(a: real, b: real): real { if a <= b then a else b }

  function HistoryOf(st: State, s: Symbol): seq<Point> {
    if s in st.histories then st.histories[s] else []
  }

  /** The points strictly before `t`. */
  function Before(h: seq<Point>, t: Time): seq<Point> {
    if h == [] then []
    else
      var rest := Before(h[..|h| - 1], t);
      if h[|h| - 1].time < t then rest + [h[|h| - 1]] else rest
  }

  function AtOpen(): Bar -> real {
    (b: Bar) => b.open
  }

  /** The open with slippage. */
  function AtFill(p: Params): Bar -> real {
    (b: Bar) => b.open * (1.0 + p.slippage)
  }

  function Mark(snap: Snapshot, price: Bar -> real): Position -> real {
    (pos: Position) => if pos.symbol in snap.bars then pos.quantity * price(snap.bars[pos.symbol]) else pos.notional
  }

  function Risk(): Position -> real {
    (pos: Position) => pos.initialRisk
  }

  function MarkEquity(st: State, snap: Snapshot): real {
    st.cash + Sum(Mark(snap, AtOpen()), st.positions)
  }

  function BasketNotional(p: Params, st: State, snap: Snapshot): real {
    Sum(Mark(snap, AtFill(p)), st.positions)
  }

  function BasketRisk(st: State): real {
    Sum(Risk(), st.positions)
  }

  /** The price paid for a fill at the open. */
  function OpenPrice(p: Params, b: Bar): (px: real)
    requires BarOk(b)
    ensures px >= b.open > 0.0
  {
    assert b.open * p.slippage >= 0.0;
    b.open * (1.0 + p.slippage)
  }

  // ---------------------------------------------------------------- closing

  function ExitPrice(p: Params, px: real): real {
    Max(EPS, px * (1.0 - p.slippage))
  }

  function Proceeds(p: Params, pos: Position, px: real): real {
    var gross := pos.quantity * ExitPrice(p, px);
    gross - gross * p.fee
  }

  function WithFee(p: Params, amount: real): real {
    amount + amount * p.fee
  }

  function Cost(p: Params, pos: Position): real {
    WithFee(p, pos.notional)
  }

  function Close(p: Params, st: State, s: Symbol, px: real, t: Time, reason: Reason): State
    requires s in st.positions.items
  {
    var pos := st.positions.items[s];
    st.(cash := st.cash + Proceeds(p, pos, px),
        positions := Remove(st.positions, s),
        trades := st.trades + [Trade(pos, t, ExitPrice(p, px), Proceeds(p, pos, px) - Cost(p, pos), reason)])
  }

  // ---------------------------------------------------------------- phase 1: expiry of stale proposals

  function ExpireOne(snap: Snapshot): (State, Symbol) -> State {
    (st: State, s: Symbol) =>
      if s in st.pending.items && s !in snap.bars && !st.pending.items[s].Exit?
      then st.(pending := Remove(st.pending, s)) else st
  }

  // ---------------------------------------------------------------- phase 2: gap stops at the open

  function GapStopOne(p: Params, snap: Snapshot): (State, Symbol) -> State {
    (st: State, s: Symbol) =>
      if s in st.positions.items && s in snap.bars && snap.bars[s].open <= st.positions.items[s].stop
      then Close(p, st, s, snap.bars[s].open, snap.time, GapStop) else st
  }

  // ---------------------------------------------------------------- phase 3: fills at the open

  /** What the sizing rules see. */
  datatype Room = Room(equity: real, cash: real, basketNotional: real, basketRisk: real)

  function RoomOf(p: Params, st: State, snap: Snapshot): Room {
    Room(MarkEquity(st, snap), st.cash, BasketNotional(p, st, snap), BasketRisk(st))
  }

  function AssetCap(p: Params, room: Room): real { room.equity * p.assetFraction }
  function AssetRiskCap(p: Params, room: Room): real { room.equity * p.assetRiskFraction }
  function BasketCap(p: Params, room: Room): real { room.equity * p.basketFraction }
  function BasketRiskCap(p: Params, room: Room): real { room.equity * p.basketRiskFraction }

  function Least(a: real, b: real, c: real, d: real, e: real): real {
    Min(Min(Min(Min(a, b), c), d), e)
  }

  /** The notional whose loss down to the stop is `cap`. */
  function ByRisk(cap: real, openPx: real, gap: real): real
    requires gap > 0.0
  {
    cap * openPx / gap
  }

  /** The notional that the cash can pay with its fee. */
  function ByCash(p: Params, cash: real): real {
    Max(0.0, cash / (1.0 + p.fee))
  }

  function EntryNotional(p: Params, room: Room, openPx: real, stop: real): real
    requires stop < openPx
  {
    Least(AssetCap(p, room),
          ByRisk(AssetRiskCap(p, room), openPx, openPx - stop),
          Max(0.0, BasketCap(p, room) - room.basketNotional),
          ByCash(p, room.cash),
          ByRisk(Max(0.0, BasketRiskCap(p, room) - room.basketRisk), openPx, openPx - stop))
  }

  function NewLot(s: Symbol, signalTime: Time, t: Time, openPx: real, stop: real, notional: real): Position
    requires openPx > 0.0
  {
    var qty := notional / openPx;
    Position(s, signalTime, t, openPx, stop, qty, notional, qty * (openPx - stop), 0)
  }

  function FillEntry(p: Params, st: State, s: Symbol, signalTime: Time, stop: real, snap: Snapshot): State
    requires s in snap.bars
  {
    var openPx := OpenPrice(p, snap.bars[s]);
    if st.lockdown || s in st.positions.items || |st.positions.order| >= p.maxAssets || openPx <= stop then st
    else
      var notional := EntryNotional(p, RoomOf(p, st, snap), openPx, stop);
      if notional <= 0.0 then st
      else
        st.(cash := st.cash - WithFee(p, notional),
            positions := Put(st.positions, s, NewLot(s, signalTime, snap.time, openPx, stop, notional)),
            entered := st.entered + [(s, snap.time)])
  }

  function AddGap(openPx: real, newStop: real): (gap: real)
    requires openPx > 0.0
    ensures gap > 0.0
  {
    Max(openPx - newStop, openPx * 0.000001)
  }

  function ValueAt(pos: Position, px: real): real { pos.quantity * px }

  function AddNotional(p: Params, room: Room, pos: Position, openPx: real, newStop: real): real
    requires openPx > 0.0
  {
    Least(Max(0.0, AssetCap(p, room) - ValueAt(pos, openPx)),
          Max(0.0, BasketCap(p, room) - room.basketNotional),
          ByRisk(Max(0.0, AssetRiskCap(p, room) - pos.initialRisk), openPx, AddGap(openPx, newStop)),
          ByRisk(Max(0.0, BasketRiskCap(p, room) - room.basketRisk), openPx, AddGap(openPx, newStop)),
          ByCash(p, room.cash))
  }

  function Enlarged(pos: Position, amount: real, openPx: real, newStop: real): Position
    requires openPx > 0.0
  {
    var qty := amount / openPx;
    pos.(quantity := pos.quantity + qty, notional := pos.notional + amount,
         initialRisk := pos.initialRisk + qty * Max(0.0, openPx - newStop),
         additions := pos.additions + 1, stop := newStop)
  }

  function FillAdd(p: Params, st: State, s: Symbol, trailStop: real, snap: Snapshot): State
    requires s in snap.bars
  {
    var openPx := OpenPrice(p, snap.bars[s]);
    if s !in st.positions.items then st
    else
      var pos := st.positions.items[s];
      var newStop := Max(pos.stop, trailStop);
      var amount := AddNotional(p, RoomOf(p, st, snap), pos, openPx, newStop);
      if amount > 0.0 && openPx > pos.entry then
        st.(cash := st.cash - WithFee(p, amount),
            positions := Put(st.positions, s, Enlarged(pos, amount, openPx, newStop)))
      else st
  }

  function Execute(p: Params, st: State, s: Symbol, proposal: Proposal, snap: Snapshot): State
    requires s in snap.bars
  {
    match proposal
    case Exit(_) =>
      if s in st.positions.items then Close(p, st, s, snap.bars[s].open, snap.time, SidelineLockdown) else st
    case Entry(signalTime, stop) => FillEntry(p, st, s, signalTime, stop, snap)
    case Add(_, trailStop) => FillAdd(p, st, s, trailStop, snap)
  }

  function FillOne(p: Params, snap: Snapshot): (State, (Symbol, Proposal)) -> State {
    (st: State, item: (Symbol, Proposal)) =>
      if item.0 in snap.bars
      then var r := Execute(p, st, item.0, item.1, snap); r.(pending := Remove(r.pending, item.0))
      else st
  }

  /** Everything that happens at the open of a bar. */
  function OpenPhase(p: Params, st: State, snap: Snapshot): State {
    var s1 := Fold(ExpireOne(snap), st, st.pending.order);
    var s2 := Fold(GapStopOne(p, snap), s1, s1.positions.order);
    Fold(FillOne(p, snap), s2, Entries(s2.pending))
  }

  // ---------------------------------------------------------------- phase 4: stops inside the bar

  function StopOne(p: Params, snap: Snapshot): (State, Symbol) -> State {
    (st: State, s: Symbol) =>
      if s in st.positions.items && s in snap.bars && snap.bars[s].low <= st.positions.items[s].stop
      then Close(p, st, s, st.positions.items[s].stop, snap.time, Stop) else st
  }

  // ---------------------------------------------------------------- phase 5: benchmark lockdown

  function Rises(b: seq<real>): nat {
    if |b| < 2 then 0 else Rises(b[..|b| - 1]) + (if b[|b| - 1] > b[|b| - 2] then 1 else 0)
  }

  function Falls(b: seq<real>): nat {
    if |b| < 2 then 0 else Falls(b[..|b| - 1]) + (if b[|b| - 1] < b[|b| - 2] then 1 else 0)
  }

  function Consistency(b: seq<real>): real {
    var up, down := Rises(b), Falls(b);
    if up + down == 0 then 0.0
    else (if up >= down then up else down) as real / (up + down) as real
  }

  predicate Locked(p: Params, benchmarks: seq<real>) {
    var w := if |benchmarks| > 11 then benchmarks[|benchmarks| - 11..] else benchmarks;
    |w| < 6 || Consistency(w) < p.directionalityMin
  }

  function ExitNext(snap: Snapshot): (State, Symbol) -> State {
    (st: State, s: Symbol) => st.(pending := Put(st.pending, s, Exit(snap.time)))
  }

  function LockdownPhase(p: Params, st: State, snap: Snapshot): State {
    var b := st.benchmarks + [snap.benchmark];
    var s1 := st.(benchmarks := b, lockdown := Locked(p, b));
    if s1.lockdown then Fold(ExitNext(snap), s1, s1.positions.order) else s1
  }

  // ---------------------------------------------------------------- phase 6: ratchet

  /** The stop level a completed bar supports. */
  function StopLevel(p: Params, bar: Bar): real {
    bar.low * (1.0 - p.buffer)
  }

  function RatchetOne(p: Params, snap: Snapshot): (State, Symbol) -> State {
    (st: State, s: Symbol) =>
      if s in st.positions.items && s in snap.bars
      then
        var pos := st.positions.items[s];
        st.(positions := Put(st.positions, s, pos.(stop := Max(pos.stop, StopLevel(p, snap.bars[s])))))
      else st
  }

  // ---------------------------------------------------------------- phase 7: pyramiding proposals

  predicate Winning(p: Params, st: State, pos: Position, bar: Bar) {
    var h := HistoryOf(st, pos.symbol);
    var prior := if h == [] then pos.entry else h[|h| - 1].close;
    bar.close > pos.entry && bar.close > prior && bar.flow > p.minFlow && !st.lockdown
  }

  function ProposeAddOne(p: Params, snap: Snapshot): (State, Symbol) -> State {
    (st: State, s: Symbol) =>
      if s in st.positions.items && s in snap.bars
         && st.positions.items[s].additions < p.maxAdditions
         && Winning(p, st, st.positions.items[s], snap.bars[s])
      then st.(pending := SetDefault(st.pending, s, Add(snap.time, st.positions.items[s].stop)))
      else st
  }

  // ---------------------------------------------------------------- phase 8: histories and entry signals

  /** Open positions and pending entries. */
  predicate Live(st: State, s: Symbol) {
    s in st.positions.items || (s in st.pending.items && st.pending.items[s].Entry?)
  }

  function Recorded(st: State, s: Symbol, bar: Bar, t: Time): State {
    st.(histories := st.histories[s := HistoryOf(st, s) + [Point(t, bar.close, bar.volume, bar.low, bar.flow)]])
  }

  predicate CorrelationOk(p: Params, st: State, s: Symbol, t: Time) {
    forall peer | peer in st.positions.items.Keys + st.pending.items.Keys ::
      Live(st, peer) && peer != s ==> p.pairOk(Before(HistoryOf(st, s), t), Before(HistoryOf(st, peer), t))
  }

  predicate BenchmarkUp(b: seq<real>) {
    |b| >= 2 && b[|b| - 1] > b[|b| - 2]
  }

  /** Whether a completed bar signals an entry, and may be proposed. */
  predicate Signals(p: Params, st: State, s: Symbol, bar: Bar, t: Time) {
    && !st.lockdown && s !in st.positions.items && |HistoryOf(st, s)| >= p.warmup
    && p.signal(HistoryOf(st, s)) && BenchmarkUp(st.benchmarks)
    && CorrelationOk(p, st, s, t) && 0.0 < StopLevel(p, bar) < bar.close
  }

  function Signalled(p: Params, st: State, s: Symbol, bar: Bar, t: Time): State {
    var r := Recorded(st, s, bar, t);
    if Signals(p, r, s, bar, t) then r.(pending := Put(r.pending, s, Entry(t, StopLevel(p, bar)))) else r
  }

  function SignalOne(p: Params, snap: Snapshot): (State, Symbol) -> State {
    (st: State, s: Symbol) => if s in snap.bars then Signalled(p, st, s, snap.bars[s], snap.time) else st
  }

  // ---------------------------------------------------------------- a bar, a run, the end

  function ClosePhase(p: Params, st: State, snap: Snapshot): State {
    var s4 := Fold(StopOne(p, snap), st, st.positions.order);
    var s5 := LockdownPhase(p, s4, snap);
    var s6 := Fold(RatchetOne(p, snap), s5, s5.positions.order);
    var s7 := Fold(ProposeAddOne(p, snap), s6, s6.positions.order);
    Fold(SignalOne(p, snap), s7, snap.order)
  }

  function BarStep(p: Params, st: State, snap: Snapshot): State {
    ClosePhase(p, OpenPhase(p, st, snap), snap)
  }

  function Run(p: Params, snaps: seq<Snapshot>): State {
    if snaps == [] then Start(p) else BarStep(p, Run(p, snaps[..|snaps| - 1]), snaps[|snaps| - 1])
  }

  function FinalPrice(st: State, s: Symbol, last: Snapshot): real {
    if s in last.bars then last.bars[s].close
    else
      var h := HistoryOf(st, s);
      if h == [] then 0.0 else h[|h| - 1].close
  }

  function LiquidateOne(p: Params, last: Snapshot): (State, Symbol) -> State {
    (st: State, s: Symbol) =>
      if s in st.positions.items then Close(p, st, s, FinalPrice(st, s, last), last.time, EndOfData) else st
  }

  function Liquidated(p: Params, st: State, last: Snapshot): State {
    Fold(LiquidateOne(p, last), st, st.positions.order)
  }

  /** The whole replay: the state whose cash is the reported final equity. */
  function Backtest(p: Params, snaps: seq<Snapshot>): State
    requires snaps != []
  {
    Liquidated(p, Run(p, snaps), snaps[|snaps| - 1])
  }
}
