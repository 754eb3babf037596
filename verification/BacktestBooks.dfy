/** What every step of the replay keeps in the books: money, risk and the log of entries. */
module BacktestBooks {
  import opened Arithmetic
  import opened OrderedDict
  import opened BacktestModel

  // ---------------------------------------------------------------- the books

  ghost function Booked(p: Params): Position -> real {
    (pos: Position) => Cost(p, pos)
  }

  ghost function Pnl(trades: seq<Trade>): real {
    if trades == [] then 0.0 else Pnl(trades[..|trades| - 1]) + trades[|trades| - 1].pnl
  }

  /** Cash plus what the open positions cost is the initial cash plus the closed results. */
  ghost predicate Balanced(p: Params, st: State) {
    st.cash + Sum(Booked(p), st.positions) == p.initialCash + Pnl(st.trades)
  }

  /** A position risks no more between cost and stop than its recorded risk. */
  ghost predicate Sound(p: Params, pos: Position) {
    && pos.quantity > 0.0 && pos.notional > 0.0 && pos.initialRisk > 0.0 && pos.stop > 0.0 && pos.entry > 0.0
    && pos.notional - pos.quantity * pos.stop <= pos.initialRisk
    && pos.additions <= p.maxAdditions
  }

  ghost predicate AllSound(p: Params, d: Dict<Position>) {
    forall s :: s in d.items ==> d.items[s].symbol == s && Sound(p, d.items[s])
  }

  ghost function IsLot(s: Symbol, t: Time): Position -> real {
    (pos: Position) => if pos.symbol == s && pos.entryTime == t then 1.0 else 0.0
  }

  ghost function TradesOf(trades: seq<Trade>, s: Symbol, t: Time): nat {
    if trades == [] then 0
    else
      TradesOf(trades[..|trades| - 1], s, t)
      + if trades[|trades| - 1].lot.symbol == s && trades[|trades| - 1].lot.entryTime == t then 1 else 0
  }

  /** Each logged entry is either still open or has become a trade, once. */
  ghost predicate Logged(st: State) {
    forall s, t :: multiset(st.entered)[(s, t)] as real
      == TradesOf(st.trades, s, t) as real + Sum(IsLot(s, t), st.positions)
  }

  /** A stop exit loses at most the recorded risk plus fees on both legs and slippage. */
  ghost predicate StopLossBounded(p: Params, tr: Trade) {
    tr.reason == Stop ==>
      -tr.pnl <= tr.lot.initialRisk + tr.lot.notional * p.fee
                 + tr.lot.quantity * tr.lot.stop * (p.slippage + p.fee - p.slippage * p.fee)
  }

  ghost predicate TradesSound(p: Params, trades: seq<Trade>) {
    forall i :: 0 <= i < |trades| ==>
      && trades[i].lot.initialRisk > 0.0
      && (p.fee <= 1.0 ==> StopLossBounded(p, trades[i]))
  }

  ghost predicate Books(p: Params, st: State) {
    && Balanced(p, st)
    && (p.fee <= 1.0 ==> st.cash >= 0.0)
    && AllSound(p, st.positions)
    && |st.positions.order| <= p.maxAssets
    && Logged(st)
    && TradesSound(p, st.trades)
  }

  /** The part of the state the books are about. */
  ghost predicate SameBooks(a: State, b: State) {
    a.cash == b.cash && a.positions == b.positions && a.trades == b.trades && a.entered == b.entered
  }

  lemma SameBooksKeep(p: Params, a: State, b: State)
    requires Books(p, a) && SameBooks(a, b)
    ensures Books(p, b)
  {
  }

  // ---------------------------------------------------------------- arithmetic

  /** What a notional within its risk cap can lose down to the stop is within the cap. */
  lemma RiskOfNotional(x: real, cap: real, px: real, gap: real)
    requires px > 0.0 && gap > 0.0 && x <= ByRisk(cap, px, gap)
    ensures x / px * gap <= cap
  {
    MulLeq(x, cap * px / gap, gap);
    DivTimes(cap * px, gap);
    DivTimes(x, px);
    var r := x / px * gap;
    assert r * px == x * gap by {
      assert x / px * gap * px == (x / px * px) * gap;
    }
    if r > cap {
      MulLess(cap, r, px);
      assert false;
    }
  }

  lemma CashCovers(p: Params, x: real, cash: real)
    requires x > 0.0 && x <= ByCash(p, cash)
    ensures WithFee(p, x) <= cash
  {
    MulLeq(x, cash / (1.0 + p.fee), 1.0 + p.fee);
    DivTimes(cash, 1.0 + p.fee);
    assert x * (1.0 + p.fee) == x + x * p.fee;
  }

  lemma LeastBounds(a: real, b: real, c: real, d: real, e: real)
    ensures Least(a, b, c, d, e) <= a && Least(a, b, c, d, e) <= b && Least(a, b, c, d, e) <= c
    ensures Least(a, b, c, d, e) <= d && Least(a, b, c, d, e) <= e
  {
  }

  lemma NewRisk(notional: real, px: real, stop: real)
    requires px > 0.0
    ensures notional - notional / px * stop == notional / px * (px - stop)
  {
    DivTimes(notional, px);
    var q := notional / px;
    assert q * (px - stop) == q * px - q * stop;
  }

  lemma EnlargedRisk(n: real, q: real, stop: real, risk: real, amount: real, px: real, newStop: real)
    requires q > 0.0 && px > 0.0 && amount > 0.0 && stop <= newStop && n - q * stop <= risk
    ensures (n + amount) - (q + amount / px) * newStop <= risk + amount / px * Max(0.0, px - newStop)
  {
    var dq := amount / px;
    DivTimes(amount, px);
    MulLeq(stop, newStop, q);
    MulLeq(px - newStop, Max(0.0, px - newStop), dq);
    assert (q + dq) * newStop == q * newStop + dq * newStop;
    assert dq * (px - newStop) == dq * px - dq * newStop;
  }

  // ---------------------------------------------------------------- closing

  lemma ProceedsNonNegative(p: Params, pos: Position, px: real)
    requires pos.quantity > 0.0 && p.fee <= 1.0
    ensures Proceeds(p, pos, px) >= 0.0
  {
    var gross := pos.quantity * ExitPrice(p, px);
    MulNonNegative(pos.quantity, ExitPrice(p, px), gross);
    MulLeq(p.fee, 1.0, gross);
    assert gross * 1.0 == gross;
  }

  lemma {:induction false} LoggedClose(st: State, tr: Trade, s: Symbol)
    requires Logged(st) && s in st.positions.items && tr.lot == st.positions.items[s]
    ensures Logged(st.(positions := Remove(st.positions, s), trades := st.trades + [tr]))
  {
    var next := st.(positions := Remove(st.positions, s), trades := st.trades + [tr]);
    forall k, t
      ensures multiset(next.entered)[(k, t)] as real
                == TradesOf(next.trades, k, t) as real + Sum(IsLot(k, t), next.positions)
    {
      SumRemove(IsLot(k, t), st.positions, s);
      assert next.trades[..|next.trades| - 1] == st.trades;
    }
  }

  /** proceeds at a stop exit, against the stop value of the position */
  lemma StopProceeds(p: Params, pos: Position)
    requires pos.quantity > 0.0 && p.fee <= 1.0
    ensures Proceeds(p, pos, pos.stop)
         >= pos.quantity * pos.stop - pos.quantity * pos.stop * (p.slippage + p.fee - p.slippage * p.fee)
  {
    var v := pos.quantity * pos.stop;
    var gross := pos.quantity * ExitPrice(p, pos.stop);
    MulLeq(pos.stop * (1.0 - p.slippage), ExitPrice(p, pos.stop), pos.quantity);
    assert pos.quantity * (pos.stop * (1.0 - p.slippage)) == v * (1.0 - p.slippage);
    MulLeq(v * (1.0 - p.slippage), gross, 1.0 - p.fee);
    assert gross - gross * p.fee == gross * (1.0 - p.fee);
    KeptFraction(v, p.slippage, p.fee);
  }

  lemma KeptFraction(v: real, slippage: real, fee: real)
    ensures v * (1.0 - slippage) * (1.0 - fee) == v - v * (slippage + fee - slippage * fee)
  {
    assert (1.0 - slippage) * (1.0 - fee) == 1.0 - (slippage + fee - slippage * fee);
    assert v * (1.0 - slippage) * (1.0 - fee) == v * ((1.0 - slippage) * (1.0 - fee));
    assert v * (1.0 - (slippage + fee - slippage * fee)) == v - v * (slippage + fee - slippage * fee);
  }

  lemma ClosedTradeSound(p: Params, pos: Position, px: real, t: Time, reason: Reason)
    requires Sound(p, pos) && (reason == Stop ==> px == pos.stop) && p.fee <= 1.0
    ensures StopLossBounded(p, Trade(pos, t, ExitPrice(p, px), Proceeds(p, pos, px) - Cost(p, pos), reason))
  {
    if reason == Stop {
      StopProceeds(p, pos);
    }
  }

  lemma CloseKeepsBalance(p: Params, st: State, s: Symbol, px: real, t: Time, reason: Reason)
    requires Balanced(p, st) && s in st.positions.items
    ensures Balanced(p, Close(p, st, s, px, t, reason))
  {
    hide Proceeds;
    hide Cost;
    hide ExitPrice;
    var pos := st.positions.items[s];
    var next := Close(p, st, s, px, t, reason);
    SumRemove(Booked(p), st.positions, s);
    assert next.trades[..|next.trades| - 1] == st.trades;
    assert Booked(p)(pos) == Cost(p, pos);
    hide Sum;
    hide Remove;
  }

  lemma CloseKeepsSound(p: Params, d: Dict<Position>, s: Symbol)
    requires AllSound(p, d) && s in d.items
    ensures AllSound(p, Remove(d, s)) && |Remove(d, s).order| < |d.order|
  {
    hide Sound;
    RemoveSize(d, s);
  }

  lemma CloseKeepsTrades(p: Params, st: State, s: Symbol, px: real, t: Time, reason: Reason)
    requires TradesSound(p, st.trades) && s in st.positions.items && Sound(p, st.positions.items[s])
    requires reason == Stop ==> px == st.positions.items[s].stop
    ensures TradesSound(p, Close(p, st, s, px, t, reason).trades)
  {
    hide StopLossBounded;
    hide Proceeds;
    hide Cost;
    if p.fee <= 1.0 {
      ClosedTradeSound(p, st.positions.items[s], px, t, reason);
    }
  }

  lemma CloseKeepsBooks(p: Params, st: State, s: Symbol, px: real, t: Time, reason: Reason)
    requires Books(p, st) && s in st.positions.items
    requires reason == Stop ==> px == st.positions.items[s].stop
    ensures Books(p, Close(p, st, s, px, t, reason))
  {
    var pos := st.positions.items[s];
    var next := Close(p, st, s, px, t, reason);
    assert pos.symbol == s && Sound(p, pos) && pos.quantity > 0.0;
    hide Balanced;
    hide AllSound;
    hide Logged;
    hide TradesSound;
    hide Sound;
    hide Proceeds;
    hide Cost;
    hide Remove;
    CloseKeepsBalance(p, st, s, px, t, reason);
    CloseKeepsSound(p, st.positions, s);
    CloseKeepsTrades(p, st, s, px, t, reason);
    if p.fee <= 1.0 {
      ProceedsNonNegative(p, pos, px);
    }
    LoggedClose(st, next.trades[|st.trades|], s);
    LoggedSame(st.(positions := Remove(st.positions, s), trades := st.trades + [next.trades[|st.trades|]]), next);
  }

  /** Cash stays non-negative after a close at every price exactly when the fee is at most 100%, or slippage is
      total and cash covers the rest of the fee on the smallest exit price. */
  lemma CashAfterCloseIff(p: Params, cash: real, pos: Position)
    requires cash >= 0.0 && pos.quantity > 0.0
    ensures (forall px :: px > 0.0 ==> cash + Proceeds(p, pos, px) >= 0.0)
            <==> (p.fee <= 1.0 || (p.slippage >= 1.0 && cash >= pos.quantity * EPS * (p.fee - 1.0)))
  {
    if p.fee <= 1.0 {
      forall px | px > 0.0 ensures cash + Proceeds(p, pos, px) >= 0.0 {
        ProceedsNonNegative(p, pos, px);
      }
    } else if p.slippage >= 1.0 {
      forall px | px > 0.0 ensures Proceeds(p, pos, px) == -(pos.quantity * EPS * (p.fee - 1.0)) {
        MulNonNegative(px, p.slippage - 1.0, px * (p.slippage - 1.0));
        assert px * (1.0 - p.slippage) == -(px * (p.slippage - 1.0));
        assert ExitPrice(p, px) == EPS;
        var gross := pos.quantity * EPS;
        assert gross - gross * p.fee == -(gross * (p.fee - 1.0));
      }
      assert Proceeds(p, pos, 1.0) == -(pos.quantity * EPS * (p.fee - 1.0));
    } else {
      var px := RuinousPrice(p, cash, pos);
    }
  }

  lemma RuinousPrice(p: Params, cash: real, pos: Position) returns (px: real)
    requires cash >= 0.0 && pos.quantity > 0.0 && p.fee > 1.0 && p.slippage < 1.0
    ensures px > 0.0 && cash + Proceeds(p, pos, px) < 0.0
  {
    var target := (cash + 1.0) / (p.fee - 1.0);
    DivTimes(cash + 1.0, p.fee - 1.0);
    var exit := target / pos.quantity + EPS;
    DivTimes(target, pos.quantity);
    px := exit / (1.0 - p.slippage);
    DivTimes(exit, 1.0 - p.slippage);
    assert ExitPrice(p, px) == exit;
    var gross := pos.quantity * exit;
    assert gross == target + pos.quantity * EPS;
    MulNonNegative(pos.quantity, EPS, pos.quantity * EPS);
    assert gross >= target;
    MulLeq(target, gross, p.fee - 1.0);
    assert gross - gross * p.fee == -(gross * (p.fee - 1.0));
  }

  // ---------------------------------------------------------------- opening and enlarging

  lemma LoggedEntry(st: State, pos: Position)
    requires Logged(st) && pos.symbol !in st.positions.items
    ensures Logged(st.(positions := Put(st.positions, pos.symbol, pos),
                       entered := st.entered + [(pos.symbol, pos.entryTime)]))
  {
    var next := st.(positions := Put(st.positions, pos.symbol, pos),
                    entered := st.entered + [(pos.symbol, pos.entryTime)]);
    forall k, t
      ensures multiset(next.entered)[(k, t)] as real
                == TradesOf(next.trades, k, t) as real + Sum(IsLot(k, t), next.positions)
    {
      SumPut(IsLot(k, t), st.positions, pos.symbol, pos);
    }
  }

  /** Replacing a position by one of the same lot keeps the log. */
  lemma LoggedReplace(st: State, s: Symbol, pos: Position)
    requires Logged(st) && s in st.positions.items
    requires pos.symbol == st.positions.items[s].symbol && pos.entryTime == st.positions.items[s].entryTime
    ensures Logged(st.(positions := Put(st.positions, s, pos)))
  {
    var next := st.(positions := Put(st.positions, s, pos));
    forall k, t
      ensures multiset(next.entered)[(k, t)] as real
                == TradesOf(next.trades, k, t) as real + Sum(IsLot(k, t), next.positions)
    {
      SumPut(IsLot(k, t), st.positions, s, pos);
    }
  }

  ghost predicate EntryPaid(p: Params, room: Room, x: real, openPx: real, stop: real)
    requires openPx > 0.0
  {
    var qty := x / openPx;
    && qty > 0.0 && x == qty * openPx
    && x - qty * stop == qty * (openPx - stop) && qty * (openPx - stop) > 0.0
    && WithFee(p, x) <= room.cash
  }

  /** The filled position and the basket are within their fractions of the equity used for sizing. */
  ghost predicate EntryWithin(p: Params, room: Room, x: real, openPx: real, stop: real)
    requires openPx > 0.0
  {
    var risk := x / openPx * (openPx - stop);
    && x <= AssetCap(p, room)
    && risk <= AssetRiskCap(p, room)
    && room.basketNotional + x <= BasketCap(p, room)
    && room.basketRisk + risk <= BasketRiskCap(p, room)
  }

  lemma EntryBounds(p: Params, room: Room, openPx: real, stop: real)
    requires stop < openPx
    ensures var x := EntryNotional(p, room, openPx, stop);
            && x <= AssetCap(p, room)
            && x <= ByRisk(AssetRiskCap(p, room), openPx, openPx - stop)
            && x <= Max(0.0, BasketCap(p, room) - room.basketNotional)
            && x <= ByCash(p, room.cash)
            && x <= ByRisk(Max(0.0, BasketRiskCap(p, room) - room.basketRisk), openPx, openPx - stop)
  {
    hide AssetCap;
    hide AssetRiskCap;
    hide BasketCap;
    hide BasketRiskCap;
    hide ByRisk;
    hide ByCash;
    hide Least;
    LeastBounds(AssetCap(p, room), ByRisk(AssetRiskCap(p, room), openPx, openPx - stop),
                Max(0.0, BasketCap(p, room) - room.basketNotional), ByCash(p, room.cash),
                ByRisk(Max(0.0, BasketRiskCap(p, room) - room.basketRisk), openPx, openPx - stop));
  }

  /** A size within the cash and the two risk caps, whatever those are. */
  lemma SizedEntry(p: Params, x: real, cash: real, openPx: real, stop: real, riskCap: real, basketCap: real)
    requires x > 0.0 && openPx > 0.0 && stop < openPx
    requires x <= ByCash(p, cash) && x <= ByRisk(riskCap, openPx, openPx - stop)
    requires x <= ByRisk(Max(0.0, basketCap), openPx, openPx - stop)
    ensures EntryPaid(p, Room(0.0, cash, 0.0, 0.0), x, openPx, stop)
    ensures x / openPx * (openPx - stop) <= riskCap && x / openPx * (openPx - stop) <= basketCap
  {
    hide ByRisk;
    hide ByCash;
    var gap := openPx - stop;
    DivTimes(x, openPx);
    NewRisk(x, openPx, stop);
    CashCovers(p, x, cash);
    RiskOfNotional(x, riskCap, openPx, gap);
    RiskOfNotional(x, Max(0.0, basketCap), openPx, gap);
    ProductPositive(x / openPx, gap, x / openPx * gap);
  }

  lemma EntrySizing(p: Params, room: Room, openPx: real, stop: real)
    requires openPx > 0.0 && stop < openPx && EntryNotional(p, room, openPx, stop) > 0.0
    ensures EntryPaid(p, room, EntryNotional(p, room, openPx, stop), openPx, stop)
    ensures EntryWithin(p, room, EntryNotional(p, room, openPx, stop), openPx, stop)
  {
    hide AssetCap;
    hide AssetRiskCap;
    hide BasketCap;
    hide BasketRiskCap;
    hide ByRisk;
    hide ByCash;
    hide EntryNotional;
    EntryBounds(p, room, openPx, stop);
    SizedEntry(p, EntryNotional(p, room, openPx, stop), room.cash, openPx, stop,
               AssetRiskCap(p, room), BasketRiskCap(p, room) - room.basketRisk);
  }

  ghost function Opening(p: Params, st: State, pos: Position): State {
    st.(cash := st.cash - Cost(p, pos), positions := Put(st.positions, pos.symbol, pos),
        entered := st.entered + [(pos.symbol, pos.entryTime)])
  }

  lemma OpenKeepsBalance(p: Params, st: State, pos: Position)
    requires Balanced(p, st) && pos.symbol !in st.positions.items
    ensures Balanced(p, Opening(p, st, pos))
  {
    hide Cost;
    SumPut(Booked(p), st.positions, pos.symbol, pos);
    assert Booked(p)(pos) == Cost(p, pos);
    hide Sum;
    hide Put;
  }

  lemma OpenKeepsSound(p: Params, st: State, pos: Position)
    requires AllSound(p, st.positions) && Sound(p, pos) && pos.symbol !in st.positions.items
    ensures AllSound(p, Put(st.positions, pos.symbol, pos))
    ensures |Put(st.positions, pos.symbol, pos).order| == |st.positions.order| + 1
  {
    hide Sound;
  }

  lemma OpenKeepsBooks(p: Params, st: State, pos: Position)
    requires Books(p, st) && Sound(p, pos) && pos.symbol !in st.positions.items
    requires |st.positions.order| < p.maxAssets && Cost(p, pos) <= st.cash
    ensures Books(p, Opening(p, st, pos))
  {
    hide Balanced;
    hide AllSound;
    hide Logged;
    hide TradesSound;
    hide Sound;
    hide Cost;
    hide Put;
    OpenKeepsBalance(p, st, pos);
    OpenKeepsSound(p, st, pos);
    LoggedEntry(st, pos);
    LoggedSame(st.(positions := Put(st.positions, pos.symbol, pos),
                   entered := st.entered + [(pos.symbol, pos.entryTime)]),
               Opening(p, st, pos));
  }

  lemma LoggedSame(a: State, b: State)
    requires Logged(a) && a.entered == b.entered && a.positions == b.positions && a.trades == b.trades
    ensures Logged(b)
  {
  }

  lemma NewLotSound(p: Params, s: Symbol, signalTime: Time, t: Time, openPx: real, stop: real, x: real, room: Room)
    requires openPx > 0.0 && stop > 0.0 && x > 0.0 && EntryPaid(p, room, x, openPx, stop)
    ensures Sound(p, NewLot(s, signalTime, t, openPx, stop, x))
    ensures Cost(p, NewLot(s, signalTime, t, openPx, stop, x)) == WithFee(p, x) <= room.cash
  {
  }

  /** Whether a pending entry is filled, and with what. */
  ghost predicate EntryFills(p: Params, st: State, s: Symbol, stop: real, snap: Snapshot)
    requires s in snap.bars
  {
    var openPx := OpenPrice(p, snap.bars[s]);
    && !st.lockdown && s !in st.positions.items && |st.positions.order| < p.maxAssets && stop < openPx
    && EntryNotional(p, RoomOf(p, st, snap), openPx, stop) > 0.0
  }

  lemma FillEntryIs(p: Params, st: State, s: Symbol, signalTime: Time, stop: real, snap: Snapshot)
    requires s in snap.bars
    ensures var r := FillEntry(p, st, s, signalTime, stop, snap);
            if EntryFills(p, st, s, stop, snap) then
              var openPx := OpenPrice(p, snap.bars[s]);
              var pos := NewLot(s, signalTime, snap.time, openPx, stop,
                EntryNotional(p, RoomOf(p, st, snap), openPx, stop));
              r == st.(cash := st.cash - Cost(p, pos), positions := Put(st.positions, s, pos),
                       entered := st.entered + [(s, snap.time)])
            else r == st
  {
    hide EntryNotional;
    hide RoomOf;
    hide OpenPrice;
    hide NewLot;
    hide WithFee;
    if EntryFills(p, st, s, stop, snap) {
      NewLotCost(p, s, signalTime, snap.time, OpenPrice(p, snap.bars[s]), stop,
                 EntryNotional(p, RoomOf(p, st, snap), OpenPrice(p, snap.bars[s]), stop));
    }
  }

  lemma NewLotCost(p: Params, s: Symbol, signalTime: Time, t: Time, openPx: real, stop: real, x: real)
    requires openPx > 0.0
    ensures Cost(p, NewLot(s, signalTime, t, openPx, stop, x)) == WithFee(p, x)
  {
  }

  lemma FillEntryKeepsBooks(p: Params, st: State, s: Symbol, signalTime: Time, stop: real, snap: Snapshot)
    requires Books(p, st) && s in snap.bars && stop > 0.0
    ensures Books(p, FillEntry(p, st, s, signalTime, stop, snap))
  {
    hide EntryNotional;
    hide Books;
    hide RoomOf;
    hide FillEntry;
    hide EntryPaid;
    hide EntryWithin;
    hide Sound;
    hide Cost;
    FillEntryIs(p, st, s, signalTime, stop, snap);
    if EntryFills(p, st, s, stop, snap) {
      var openPx := OpenPrice(p, snap.bars[s]);
      var room := RoomOf(p, st, snap);
      var x := EntryNotional(p, room, openPx, stop);
      RoomCash(p, st, snap);
      EntrySizing(p, room, openPx, stop);
      NewLotSound(p, s, signalTime, snap.time, openPx, stop, x, room);
      OpenKeepsBooks(p, st, NewLot(s, signalTime, snap.time, openPx, stop, x));
    }
  }

  lemma RoomCash(p: Params, st: State, snap: Snapshot)
    ensures RoomOf(p, st, snap).cash == st.cash
  {
  }

  /** An addition is paid for and keeps the enlarged position and the basket inside their limits. */
  ghost predicate AddWithin(p: Params, room: Room, pos: Position, bigger: Position, x: real, openPx: real) {
    && WithFee(p, x) <= room.cash
    && bigger.quantity * openPx <= AssetCap(p, room)
    && bigger.initialRisk <= AssetRiskCap(p, room)
    && room.basketNotional + (bigger.quantity - pos.quantity) * openPx <= BasketCap(p, room)
    && room.basketRisk + (bigger.initialRisk - pos.initialRisk) <= BasketRiskCap(p, room)
  }

  lemma AddedRisk(x: real, cap: real, openPx: real, newStop: real)
    requires openPx > 0.0 && x > 0.0 && x <= ByRisk(Max(0.0, cap), openPx, AddGap(openPx, newStop))
    ensures x / openPx * Max(0.0, openPx - newStop) <= cap
  {
    var gap := AddGap(openPx, newStop);
    RiskOfNotional(x, Max(0.0, cap), openPx, gap);
    DivTimes(x, openPx);
    ProductPositive(x / openPx, gap, x / openPx * gap);
    assert openPx * 0.000001 > 0.0;
    MulLeq(Max(0.0, openPx - newStop), gap, x / openPx);
  }

  lemma AddBounds(p: Params, room: Room, pos: Position, openPx: real, newStop: real)
    requires openPx > 0.0
    ensures var x := AddNotional(p, room, pos, openPx, newStop);
            && x <= Max(0.0, AssetCap(p, room) - ValueAt(pos, openPx))
            && x <= Max(0.0, BasketCap(p, room) - room.basketNotional)
            && x <= ByRisk(Max(0.0, AssetRiskCap(p, room) - pos.initialRisk), openPx, AddGap(openPx, newStop))
            && x <= ByRisk(Max(0.0, BasketRiskCap(p, room) - room.basketRisk), openPx, AddGap(openPx, newStop))
            && x <= ByCash(p, room.cash)
  {
    hide AssetCap;
    hide AssetRiskCap;
    hide BasketCap;
    hide BasketRiskCap;
    hide ByRisk;
    hide ByCash;
    hide AddGap;
    hide ValueAt;
    hide Least;
    LeastBounds(Max(0.0, AssetCap(p, room) - ValueAt(pos, openPx)), Max(0.0, BasketCap(p, room) - room.basketNotional),
                ByRisk(Max(0.0, AssetRiskCap(p, room) - pos.initialRisk), openPx, AddGap(openPx, newStop)),
                ByRisk(Max(0.0, BasketRiskCap(p, room) - room.basketRisk), openPx, AddGap(openPx, newStop)),
                ByCash(p, room.cash));
  }

  /** An addition within caps `asset`, `basket`, `risk`, `basketRisk` and the cash, whatever those are. */
  lemma SizedAdd(p: Params, pos: Position, x: real, cash: real, openPx: real, newStop: real,
                 asset: real, basket: real, risk: real, basketRisk: real)
    requires x > 0.0 && openPx > 0.0 && x <= ByCash(p, cash)
    requires x <= Max(0.0, asset - ValueAt(pos, openPx)) && x <= Max(0.0, basket)
    requires x <= ByRisk(Max(0.0, risk - pos.initialRisk), openPx, AddGap(openPx, newStop))
    requires x <= ByRisk(Max(0.0, basketRisk), openPx, AddGap(openPx, newStop))
    ensures var bigger := Enlarged(pos, x, openPx, newStop);
            && WithFee(p, x) <= cash
            && bigger.quantity * openPx <= asset && bigger.initialRisk <= risk
            && (bigger.quantity - pos.quantity) * openPx <= basket
            && bigger.initialRisk - pos.initialRisk <= basketRisk
  {
    hide ByRisk;
    hide ByCash;
    hide AddGap;
    DivTimes(x, openPx);
    CashCovers(p, x, cash);
    AddedRisk(x, risk - pos.initialRisk, openPx, newStop);
    AddedRisk(x, basketRisk, openPx, newStop);
    assert (pos.quantity + x / openPx) * openPx == pos.quantity * openPx + x / openPx * openPx;
    assert (pos.quantity + x / openPx - pos.quantity) * openPx == x / openPx * openPx;
  }

  lemma AddSizing(p: Params, room: Room, pos: Position, openPx: real, newStop: real)
    requires openPx > 0.0 && AddNotional(p, room, pos, openPx, newStop) > 0.0
    ensures var x := AddNotional(p, room, pos, openPx, newStop);
            AddWithin(p, room, pos, Enlarged(pos, x, openPx, newStop), x, openPx)
  {
    hide AssetCap;
    hide AssetRiskCap;
    hide BasketCap;
    hide BasketRiskCap;
    hide ByRisk;
    hide ByCash;
    hide AddGap;
    hide AddNotional;
    hide Enlarged;
    AddBounds(p, room, pos, openPx, newStop);
    SizedAdd(p, pos, AddNotional(p, room, pos, openPx, newStop), room.cash, openPx, newStop,
             AssetCap(p, room), BasketCap(p, room) - room.basketNotional,
             AssetRiskCap(p, room), BasketRiskCap(p, room) - room.basketRisk);
  }

  lemma AddPaid(p: Params, room: Room, pos: Position, openPx: real, newStop: real)
    requires openPx > 0.0 && AddNotional(p, room, pos, openPx, newStop) > 0.0
    ensures WithFee(p, AddNotional(p, room, pos, openPx, newStop)) <= room.cash
  {
    AddSizing(p, room, pos, openPx, newStop);
  }

  lemma EnlargedSound(p: Params, pos: Position, amount: real, openPx: real, newStop: real)
    requires Sound(p, pos) && pos.additions < p.maxAdditions
    requires amount > 0.0 && openPx > 0.0 && pos.stop <= newStop
    ensures Sound(p, Enlarged(pos, amount, openPx, newStop))
  {
    DivTimes(amount, openPx);
    EnlargedRisk(pos.notional, pos.quantity, pos.stop, pos.initialRisk, amount, openPx, newStop);
    MulNonNegative(amount / openPx, Max(0.0, openPx - newStop), amount / openPx * Max(0.0, openPx - newStop));
  }

  lemma EnlargeKeepsBooks(p: Params, st: State, s: Symbol, bigger: Position, x: real)
    requires Books(p, st) && s in st.positions.items && Sound(p, bigger)
    requires bigger.symbol == s && bigger.entryTime == st.positions.items[s].entryTime
    requires bigger.notional == st.positions.items[s].notional + x && WithFee(p, x) <= st.cash
    ensures Books(p, st.(cash := st.cash - (WithFee(p, x)), positions := Put(st.positions, s, bigger)))
  {
    hide TradesSound;
    hide Sound;
    var pos := st.positions.items[s];
    SumPut(Booked(p), st.positions, s, bigger);
    assert (pos.notional + x) * p.fee == pos.notional * p.fee + x * p.fee;
    assert Booked(p)(bigger) == Booked(p)(pos) + (WithFee(p, x));
    LoggedReplace(st, s, bigger);
  }

  /** Whether a pending addition is filled. */
  ghost predicate AddFills(p: Params, st: State, s: Symbol, trailStop: real, snap: Snapshot)
    requires s in snap.bars
  {
    s in st.positions.items
    && var openPx := OpenPrice(p, snap.bars[s]);
       var pos := st.positions.items[s];
       AddNotional(p, RoomOf(p, st, snap), pos, openPx, Max(pos.stop, trailStop)) > 0.0 && openPx > pos.entry
  }

  lemma FillAddIs(p: Params, st: State, s: Symbol, trailStop: real, snap: Snapshot)
    requires s in snap.bars
    ensures var r := FillAdd(p, st, s, trailStop, snap);
            if AddFills(p, st, s, trailStop, snap) then
              var openPx := OpenPrice(p, snap.bars[s]);
              var pos := st.positions.items[s];
              var x := AddNotional(p, RoomOf(p, st, snap), pos, openPx, Max(pos.stop, trailStop));
              r == st.(cash := st.cash - (WithFee(p, x)),
                       positions := Put(st.positions, s, Enlarged(pos, x, openPx, Max(pos.stop, trailStop))))
            else r == st
  {
    hide AddNotional;
    hide RoomOf;
    hide OpenPrice;
    hide Enlarged;
    hide WithFee;
  }

  lemma EnlargedLot(pos: Position, x: real, openPx: real, newStop: real)
    requires openPx > 0.0
    ensures var b := Enlarged(pos, x, openPx, newStop);
            && b.symbol == pos.symbol && b.entryTime == pos.entryTime && b.signalTime == pos.signalTime
            && b.notional == pos.notional + x && b.stop == newStop && b.additions == pos.additions + 1
  {
  }

  lemma FillAddKeepsBooks(p: Params, st: State, s: Symbol, trailStop: real, snap: Snapshot)
    requires Books(p, st) && s in snap.bars
    requires s in st.positions.items ==> st.positions.items[s].additions < p.maxAdditions
    ensures Books(p, FillAdd(p, st, s, trailStop, snap))
  {
    hide AddNotional;
    hide RoomOf;
    hide FillAdd;
    hide Enlarged;
    hide WithFee;
    hide AddWithin;
    hide TradesSound;
    hide Sound;
    hide Balanced;
    hide Logged;
    FillAddIs(p, st, s, trailStop, snap);
    if AddFills(p, st, s, trailStop, snap) {
      var openPx := OpenPrice(p, snap.bars[s]);
      var pos := st.positions.items[s];
      var newStop := Max(pos.stop, trailStop);
      var room := RoomOf(p, st, snap);
      RoomCash(p, st, snap);
      var x := AddNotional(p, room, pos, openPx, newStop);
      AddPaid(p, room, pos, openPx, newStop);
      EnlargedSound(p, pos, x, openPx, newStop);
      EnlargedLot(pos, x, openPx, newStop);
      EnlargeKeepsBooks(p, st, s, Enlarged(pos, x, openPx, newStop), x);
    }
  }

  lemma RaisedSound(p: Params, pos: Position, stop: real)
    requires Sound(p, pos) && pos.stop <= stop
    ensures Sound(p, pos.(stop := stop))
  {
    MulLeq(pos.stop, stop, pos.quantity);
  }

  lemma RatchetKeepsBooks(p: Params, st: State, s: Symbol, stop: real)
    requires Books(p, st) && s in st.positions.items && st.positions.items[s].stop <= stop
    ensures Books(p, st.(positions := Put(st.positions, s, st.positions.items[s].(stop := stop))))
  {
    hide TradesSound;
    hide Sound;
    hide WithFee;
    var pos := st.positions.items[s];
    var raised := pos.(stop := stop);
    RaisedSound(p, pos, stop);
    SumPut(Booked(p), st.positions, s, raised);
    assert Booked(p)(raised) == Booked(p)(pos);
    LoggedReplace(st, s, raised);
  }
}
