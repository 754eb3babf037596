/** What happens at the open of a bar, written out: proposals are taken in the order in which they were made, and
    each fill is the largest that the cash and the four limits allow. */
module BacktestSizing {
  import opened Arithmetic
  import opened OrderedDict
  import opened BacktestModel
  import opened BacktestBooks
  import opened BacktestProtocol
  import opened BacktestTheorems
  import opened BacktestSignals
  import opened BacktestFills
  import opened BacktestPrices

  // ---------------------------------------------------------------- what the open lots are worth

  ghost function Lots(order: seq<Symbol>, items: map<Symbol, Position>): (lots: seq<Position>)
    requires forall i :: 0 <= i < |order| ==> order[i] in items
  {
    seq(|order|, i requires 0 <= i < |order| => items[order[i]])
  }

  /** The open lots, in order. */
  ghost function Held(st: State): seq<Position> {
    OrderPresent(st.positions);
    Lots(st.positions.order, st.positions.items)
  }

  /** The worth of lots at the opens times `markup`; a lot whose symbol does not trade counts at its notional. */
  ghost function Worth(lots: seq<Position>, bars: map<Symbol, Bar>, markup: real): real {
    if lots == [] then 0.0
    else
      var lot := lots[0];
      (if lot.symbol in bars then lot.quantity * (bars[lot.symbol].open * markup) else lot.notional)
      + Worth(lots[1..], bars, markup)
  }

  ghost function RiskOf(lots: seq<Position>): real {
    if lots == [] then 0.0 else lots[0].initialRisk + RiskOf(lots[1..])
  }

  lemma {:induction false} SumsAreWorths(p: Params, snap: Snapshot, order: seq<Symbol>, items: map<Symbol, Position>)
    requires forall i :: 0 <= i < |order| ==> order[i] in items
    ensures SumOver(Mark(snap, AtOpen()), order, items) == Worth(Lots(order, items), snap.bars, 1.0)
    ensures SumOver(Mark(snap, AtFill(p)), order, items) == Worth(Lots(order, items), snap.bars, 1.0 + p.slippage)
    ensures SumOver(Risk(), order, items) == RiskOf(Lots(order, items))
  {
    if order != [] {
      SumsAreWorths(p, snap, order[1..], items);
      assert Lots(order, items)[1..] == Lots(order[1..], items);
      OneMark(p, snap, items[order[0]]);
    }
  }

  lemma OneMark(p: Params, snap: Snapshot, lot: Position)
    ensures lot.symbol in snap.bars ==>
              && Mark(snap, AtOpen())(lot) == lot.quantity * (snap.bars[lot.symbol].open * 1.0)
              && Mark(snap, AtFill(p))(lot) == lot.quantity * (snap.bars[lot.symbol].open * (1.0 + p.slippage))
    ensures lot.symbol !in snap.bars ==>
              Mark(snap, AtOpen())(lot) == lot.notional && Mark(snap, AtFill(p))(lot) == lot.notional
    ensures Risk()(lot) == lot.initialRisk
  {
  }

  /** The three sums used for sizing. */
  lemma RoomIs(p: Params, st: State, snap: Snapshot)
    ensures var room := RoomOf(p, st, snap);
            && room.equity == st.cash + Worth(Held(st), snap.bars, 1.0) && room.cash == st.cash
            && room.basketNotional == Worth(Held(st), snap.bars, 1.0 + p.slippage)
            && room.basketRisk == RiskOf(Held(st))
  {
    hide Mark;
    hide Risk;
    hide Worth;
    hide RiskOf;
    hide Lots;
    hide SumOver;
    OrderPresent(st.positions);
    SumsAreWorths(p, snap, st.positions.order, st.positions.items);
  }

  // ---------------------------------------------------------------- the limits

  /** What a purchase adds to: the worth and the risk the asset has already, the price paid, and what a unit loses
      down to the stop. */
  datatype Offer = Offer(worth: real, risk: real, price: real, gap: real)

  ghost function Part(equity: real, fraction: real): real {
    equity * fraction
  }

  /** What a purchase of x loses down to the stop. */
  ghost function RiskFor(o: Offer, x: real): real
    requires o.price > 0.0
  {
    x / o.price * o.gap
  }

  ghost function WithItsFee(p: Params, x: real): real {
    x * (1.0 + p.fee)
  }

  /** A purchase of x respects the limits of the asset and of the basket, and the cash. */
  ghost predicate Within(p: Params, st: State, snap: Snapshot, o: Offer, x: real)
    requires o.price > 0.0
  {
    var equity := st.cash + Worth(Held(st), snap.bars, 1.0);
    && o.worth + x <= Part(equity, p.assetFraction)
    && o.risk + RiskFor(o, x) <= Part(equity, p.assetRiskFraction)
    && Worth(Held(st), snap.bars, 1.0 + p.slippage) + x <= Part(equity, p.basketFraction)
    && RiskOf(Held(st)) + RiskFor(o, x) <= Part(equity, p.basketRiskFraction)
    && WithItsFee(p, x) <= st.cash
  }

  /** The same on the sums used for sizing. */
  lemma WithinRoom(p: Params, st: State, snap: Snapshot, o: Offer, x: real)
    requires o.price > 0.0
    ensures var room := RoomOf(p, st, snap);
            Within(p, st, snap, o, x) <==>
              && o.worth + x <= AssetCap(p, room) && o.risk + RiskFor(o, x) <= AssetRiskCap(p, room)
              && room.basketNotional + x <= BasketCap(p, room)
              && room.basketRisk + RiskFor(o, x) <= BasketRiskCap(p, room)
              && WithItsFee(p, x) <= room.cash
  {
    hide Worth;
    hide RiskOf;
    hide RoomOf;
    hide RiskFor;
    hide WithItsFee;
    RoomIs(p, st, snap);
    CapsAre(p, RoomOf(p, st, snap));
    hide Part;
    hide AssetCap;
    hide AssetRiskCap;
    hide BasketCap;
    hide BasketRiskCap;
  }

  lemma CapsAre(p: Params, room: Room)
    ensures AssetCap(p, room) == Part(room.equity, p.assetFraction)
    ensures AssetRiskCap(p, room) == Part(room.equity, p.assetRiskFraction)
    ensures BasketCap(p, room) == Part(room.equity, p.basketFraction)
    ensures BasketRiskCap(p, room) == Part(room.equity, p.basketRiskFraction)
  {
  }

  /** The largest purchase within the limits. */
  ghost predicate Largest(p: Params, st: State, snap: Snapshot, o: Offer, x: real)
    requires o.price > 0.0
  {
    && x > 0.0 && Within(p, st, snap, o, x)
    && forall y :: y > 0.0 && Within(p, st, snap, o, y) ==> y <= x
  }

  ghost predicate Possible(p: Params, st: State, snap: Snapshot, o: Offer)
    requires o.price > 0.0
  {
    exists x :: x > 0.0 && Within(p, st, snap, o, x)
  }

  lemma LeastIff(x: real, a: real, b: real, c: real, d: real, e: real)
    ensures x <= Least(a, b, c, d, e) <==> x <= a && x <= b && x <= c && x <= d && x <= e
  {
  }

  lemma TimesLeq(a: real, b: real, c: real)
    requires c > 0.0
    ensures a <= b <==> a * c <= b * c
  {
    if a <= b {
      MulLeq(a, b, c);
    } else {
      MulLess(b, a, c);
    }
  }

  lemma RiskIff(o: Offer, x: real, cap: real)
    requires o.price > 0.0 && o.gap > 0.0
    ensures x <= ByRisk(cap, o.price, o.gap) <==> RiskFor(o, x) <= cap
  {
    var px, gap := o.price, o.gap;
    var q, y := x / px, ByRisk(cap, px, gap);
    DivTimes(x, px);
    DivTimes(cap * px, gap);
    assert x == q * px && y * gap == cap * px;
    TimesLeq(x, y, gap);
    TimesLeq(q * gap, cap, px);
    assert x * gap == q * gap * px;
  }

  lemma CashIff(p: Params, x: real, cash: real)
    requires x > 0.0
    ensures x <= ByCash(p, cash) <==> WithItsFee(p, x) <= cash
  {
    var y, c := cash / (1.0 + p.fee), 1.0 + p.fee;
    DivTimes(cash, c);
    TimesLeq(x, y, c);
  }

  lemma PositiveMax(x: real, c: real)
    requires x > 0.0
    ensures x <= Max(0.0, c) <==> x <= c
  {
  }

  lemma RiskPositive(o: Offer, x: real)
    requires x > 0.0 && o.price > 0.0 && o.gap > 0.0
    ensures RiskFor(o, x) > 0.0
  {
    DivTimes(x, o.price);
    ProductPositive(x / o.price, o.gap, x / o.price * o.gap);
  }

  /** The five limits of an entry, whatever they are. */
  lemma EntryLimits(p: Params, o: Offer, x: real, asset: real, risk: real, basket: real, basketRisk: real, cash: real)
    requires o.price > 0.0 && o.gap > 0.0 && x > 0.0
    ensures x <= Least(asset, ByRisk(risk, o.price, o.gap), Max(0.0, basket), ByCash(p, cash),
                       ByRisk(Max(0.0, basketRisk), o.price, o.gap))
            <==> x <= asset && x <= basket && RiskFor(o, x) <= risk && RiskFor(o, x) <= basketRisk
                 && WithItsFee(p, x) <= cash
  {
    hide Least;
    hide Max;
    hide ByRisk;
    hide ByCash;
    hide RiskFor;
    hide WithItsFee;
    LeastIff(x, asset, ByRisk(risk, o.price, o.gap), Max(0.0, basket), ByCash(p, cash),
             ByRisk(Max(0.0, basketRisk), o.price, o.gap));
    RiskIff(o, x, risk);
    PositiveMax(x, basket);
    CashIff(p, x, cash);
    RiskIff(o, x, Max(0.0, basketRisk));
    RiskPositive(o, x);
    PositiveMax(RiskFor(o, x), basketRisk);
  }

  /** The five limits of an addition, whatever they are. */
  lemma AddLimits(p: Params, o: Offer, x: real, asset: real, basket: real, risk: real, basketRisk: real, cash: real)
    requires o.price > 0.0 && o.gap > 0.0 && x > 0.0
    ensures x <= Least(Max(0.0, asset), Max(0.0, basket), ByRisk(Max(0.0, risk), o.price, o.gap),
                       ByRisk(Max(0.0, basketRisk), o.price, o.gap), ByCash(p, cash))
            <==> x <= asset && x <= basket && RiskFor(o, x) <= risk && RiskFor(o, x) <= basketRisk
                 && WithItsFee(p, x) <= cash
  {
    hide Least;
    hide Max;
    hide ByRisk;
    hide ByCash;
    hide RiskFor;
    hide WithItsFee;
    LeastIff(x, Max(0.0, asset), Max(0.0, basket), ByRisk(Max(0.0, risk), o.price, o.gap),
             ByRisk(Max(0.0, basketRisk), o.price, o.gap), ByCash(p, cash));
    PositiveMax(x, asset);
    PositiveMax(x, basket);
    RiskIff(o, x, Max(0.0, risk));
    RiskIff(o, x, Max(0.0, basketRisk));
    RiskPositive(o, x);
    PositiveMax(RiskFor(o, x), risk);
    PositiveMax(RiskFor(o, x), basketRisk);
    CashIff(p, x, cash);
  }

  lemma EntryWithinIff(p: Params, st: State, snap: Snapshot, o: Offer, stop: real, x: real)
    requires stop < o.price && x > 0.0 && o == Offer(0.0, 0.0, o.price, o.price - stop) && o.price > 0.0
    ensures x <= EntryNotional(p, RoomOf(p, st, snap), o.price, stop) <==> Within(p, st, snap, o, x)
  {
    hide RoomOf;
    hide RiskFor;
    hide WithItsFee;
    hide Within;
    hide ByRisk;
    hide ByCash;
    hide Least;
    hide Max;
    hide AssetCap;
    hide AssetRiskCap;
    hide BasketCap;
    hide BasketRiskCap;
    WithinRoom(p, st, snap, o, x);
    var room := RoomOf(p, st, snap);
    EntryLimits(p, o, x, AssetCap(p, room), AssetRiskCap(p, room), BasketCap(p, room) - room.basketNotional,
                BasketRiskCap(p, room) - room.basketRisk, room.cash);
  }

  lemma AddWithinIff(p: Params, st: State, snap: Snapshot, pos: Position, o: Offer, stop: real, x: real)
    requires o.price > 0.0 && x > 0.0
    requires o == Offer(ValueAt(pos, o.price), pos.initialRisk, o.price, AddGap(o.price, stop))
    ensures x <= AddNotional(p, RoomOf(p, st, snap), pos, o.price, stop) <==> Within(p, st, snap, o, x)
  {
    hide RoomOf;
    hide RiskFor;
    hide WithItsFee;
    hide Within;
    hide ByRisk;
    hide ByCash;
    hide Least;
    hide Max;
    hide AddGap;
    hide ValueAt;
    hide AssetCap;
    hide AssetRiskCap;
    hide BasketCap;
    hide BasketRiskCap;
    WithinRoom(p, st, snap, o, x);
    var room := RoomOf(p, st, snap);
    AddLimits(p, o, x, AssetCap(p, room) - o.worth, BasketCap(p, room) - room.basketNotional,
              AssetRiskCap(p, room) - o.risk, BasketRiskCap(p, room) - room.basketRisk, room.cash);
  }

  /** A bound that is reached is the largest value below it. */
  lemma BoundIsLargest(p: Params, st: State, snap: Snapshot, o: Offer, bound: real)
    requires o.price > 0.0
    requires forall x :: x > 0.0 ==> (x <= bound <==> Within(p, st, snap, o, x))
    ensures Possible(p, st, snap, o) <==> bound > 0.0
    ensures forall x :: Largest(p, st, snap, o, x) <==> bound > 0.0 && x == bound
  {
    hide Within;
    if bound > 0.0 {
      assert Within(p, st, snap, o, bound);
    }
  }

  lemma EntryBound(p: Params, a: State, snap: Snapshot, px: real, stop: real, o: Offer)
    requires px > 0.0 && stop < px && o == Offer(0.0, 0.0, px, px - stop)
    ensures var bound := EntryNotional(p, RoomOf(p, a, snap), px, stop);
            && (Possible(p, a, snap, o) <==> bound > 0.0)
            && (forall x :: Largest(p, a, snap, o, x) <==> bound > 0.0 && x == bound)
  {
    hide *;
    var bound := EntryNotional(p, RoomOf(p, a, snap), px, stop);
    forall x | x > 0.0 ensures x <= bound <==> Within(p, a, snap, o, x) {
      EntryWithinIff(p, a, snap, o, stop, x);
    }
    BoundIsLargest(p, a, snap, o, bound);
  }

  lemma AddBound(p: Params, a: State, snap: Snapshot, lot: Position, px: real, stop: real, o: Offer)
    requires px > 0.0 && o == Offer(ValueAt(lot, px), lot.initialRisk, px, AddGap(px, stop))
    ensures var bound := AddNotional(p, RoomOf(p, a, snap), lot, px, stop);
            && (Possible(p, a, snap, o) <==> bound > 0.0)
            && (forall x :: Largest(p, a, snap, o, x) <==> bound > 0.0 && x == bound)
  {
    hide *;
    var bound := AddNotional(p, RoomOf(p, a, snap), lot, px, stop);
    forall x | x > 0.0 ensures x <= bound <==> Within(p, a, snap, o, x) {
      AddWithinIff(p, a, snap, lot, o, stop, x);
    }
    BoundIsLargest(p, a, snap, o, bound);
  }

  // ---------------------------------------------------------------- one proposal at the open

  /** The proposal goes, and nothing else changes. */
  ghost predicate Dropped(a: State, b: State, s: Symbol) {
    b == a.(pending := Remove(a.pending, s))
  }

  /** The lot that a purchase of x opens, and the state it leads to. */
  ghost function LotOf(s: Symbol, signalTime: Time, t: Time, stop: real, px: real, x: real): Position
    requires px > 0.0
  {
    Position(s, signalTime, t, px, stop, x / px, x, x / px * (px - stop), 0)
  }

  ghost function AfterEntry(p: Params, a: State, s: Symbol, lot: Position, x: real, t: Time): State {
    a.(cash := a.cash - WithItsFee(p, x), positions := Put(a.positions, s, lot),
       pending := Remove(a.pending, s), entered := a.entered + [(s, t)])
  }

  /** The lot after a purchase of x more, and the state it leads to. */
  ghost function MoreOf(lot: Position, stop: real, px: real, x: real): Position
    requires px > 0.0
  {
    lot.(quantity := lot.quantity + x / px, notional := lot.notional + x,
         initialRisk := lot.initialRisk + x / px * (if px > stop then px - stop else 0.0),
         additions := lot.additions + 1, stop := stop)
  }

  ghost function AfterAdd(p: Params, a: State, s: Symbol, more: Position, x: real): State {
    a.(cash := a.cash - WithItsFee(p, x), positions := Put(a.positions, s, more), pending := Remove(a.pending, s))
  }

  /** An entry at price px fills when lockdown does not hold, the symbol is not held, a place is free, the price is
      above the stop and the limits leave room. It buys the largest amount they allow. */
  ghost predicate EntryAt(p: Params, a: State, b: State, s: Symbol, signalTime: Time, stop: real, px: real,
                          snap: Snapshot)
    requires px > 0.0
  {
    var o := Offer(0.0, 0.0, px, px - stop);
    if !a.lockdown && s !in a.positions.items && |a.positions.order| < p.maxAssets && stop < px
       && Possible(p, a, snap, o)
    then
      && s in b.positions.items
      && var x := b.positions.items[s].notional;
         && Largest(p, a, snap, o, x)
         && b == AfterEntry(p, a, s, LotOf(s, signalTime, snap.time, stop, px, x), x, snap.time)
    else Dropped(a, b, s)
  }

  /** The gap counted is at least a millionth of the price. */
  ghost function AddOffer(lot: Position, stop: real, px: real): Offer {
    Offer(lot.quantity * px, lot.initialRisk, px, if px - stop > px * 0.000001 then px - stop else px * 0.000001)
  }

  /** An addition at price px fills when the price is above the entry and the limits leave room; `stop`
      becomes the stop of the whole lot. */
  ghost predicate AddAt(p: Params, a: State, b: State, s: Symbol, stop: real, px: real, snap: Snapshot)
    requires px > 0.0 && s in a.positions.items
  {
    var lot := a.positions.items[s];
    var o := AddOffer(lot, stop, px);
    if px > lot.entry && Possible(p, a, snap, o) then
      && s in b.positions.items
      && var x := b.positions.items[s].notional - lot.notional;
         Largest(p, a, snap, o, x) && b == AfterAdd(p, a, s, MoreOf(lot, stop, px, x), x)
    else Dropped(a, b, s)
  }

  /** The open with slippage. */
  ghost function Paid(p: Params, bar: Bar): real {
    bar.open * (1.0 + p.slippage)
  }

  /** The open less slippage, but at least the smallest price. */
  ghost function Received(p: Params, bar: Bar): real {
    if bar.open * (1.0 - p.slippage) > EPS then bar.open * (1.0 - p.slippage) else EPS
  }

  lemma PricesAre(p: Params, bar: Bar)
    requires BarOk(bar)
    ensures Paid(p, bar) == OpenPrice(p, bar) > 0.0 && Received(p, bar) == ExitPrice(p, bar.open)
  {
  }

  /** The price paid is the open with slippage. */
  ghost predicate EntryRule(p: Params, a: State, b: State, s: Symbol, signalTime: Time, stop: real, snap: Snapshot)
    requires s in snap.bars
  {
    var px := Paid(p, snap.bars[s]);
    px > 0.0 && EntryAt(p, a, b, s, signalTime, stop, px, snap)
  }

  /** An addition is for a held symbol; the larger of the two stops counts. */
  ghost predicate AddRule(p: Params, a: State, b: State, s: Symbol, trailStop: real, snap: Snapshot)
    requires s in snap.bars
  {
    var px := Paid(p, snap.bars[s]);
    && px > 0.0
    && if s in a.positions.items then
         var own := a.positions.items[s].stop;
         AddAt(p, a, b, s, if trailStop > own then trailStop else own, px, snap)
       else Dropped(a, b, s)
  }

  ghost function Fetches(p: Params, lot: Position, price: real): real {
    lot.quantity * price * (1.0 - p.fee)
  }

  ghost function SaleOf(p: Params, lot: Position, t: Time, price: real): Trade {
    Trade(lot, t, price, Fetches(p, lot, price) - lot.notional * (1.0 + p.fee), SidelineLockdown)
  }

  /** A held lot is sold at `price`, with the fees of both legs. */
  ghost predicate Sold(p: Params, a: State, b: State, s: Symbol, t: Time, price: real)
    requires s in a.positions.items
  {
    var lot := a.positions.items[s];
    b == a.(cash := a.cash + Fetches(p, lot, price), positions := Remove(a.positions, s),
            pending := Remove(a.pending, s), trades := a.trades + [SaleOf(p, lot, t, price)])
  }

  /** An exit sells a held lot at the open less slippage. */
  ghost predicate ExitRule(p: Params, a: State, b: State, s: Symbol, snap: Snapshot)
    requires s in snap.bars
  {
    if s in a.positions.items then
      Sold(p, a, b, s, snap.time, Received(p, snap.bars[s]))
    else Dropped(a, b, s)
  }

  /** What one proposal does at the open of a bar, from state a to state b. */
  ghost predicate FillRule(p: Params, a: State, b: State, item: (Symbol, Proposal), snap: Snapshot) {
    if item.0 !in snap.bars then b == a
    else match item.1
      case Exit(_) => ExitRule(p, a, b, item.0, snap)
      case Entry(signalTime, stop) => EntryRule(p, a, b, item.0, signalTime, stop, snap)
      case Add(_, trailStop) => AddRule(p, a, b, item.0, trailStop, snap)
  }

  lemma FeeIs(p: Params, amount: real)
    ensures WithFee(p, amount) == WithItsFee(p, amount)
    ensures amount - amount * p.fee == amount * (1.0 - p.fee)
  {
  }

  lemma EntryReaches(p: Params, a: State, s: Symbol, signalTime: Time, stop: real, snap: Snapshot, px: real, x: real)
    requires s in snap.bars && px == OpenPrice(p, snap.bars[s])
    requires stop < px ==> x == EntryNotional(p, RoomOf(p, a, snap), px, stop)
    ensures FillOne(p, snap)(a, (s, Entry(signalTime, stop)))
            == if EntryFills(p, a, s, stop, snap)
               then AfterEntry(p, a, s, LotOf(s, signalTime, snap.time, stop, px, x), x, snap.time)
               else a.(pending := Remove(a.pending, s))
  {
    hide OpenPrice;
    hide RoomOf;
    hide EntryNotional;
    hide Remove;
    hide Put;
    hide WithFee;
    hide FillEntry;
    FillEntryIs(p, a, s, signalTime, stop, snap);
    if EntryFills(p, a, s, stop, snap) {
      NewLotCost(p, s, signalTime, snap.time, px, stop, x);
      FeeIs(p, x);
      hide Cost;
      assert NewLot(s, signalTime, snap.time, px, stop, x) == LotOf(s, signalTime, snap.time, stop, px, x);
    }
  }

  lemma EntryStates(p: Params, a: State, b: State, s: Symbol, signalTime: Time, stop: real, px: real, snap: Snapshot,
                    x: real, o: Offer)
    requires px > 0.0 && o == Offer(0.0, 0.0, px, px - stop)
    requires !a.lockdown && s !in a.positions.items && |a.positions.order| < p.maxAssets && stop < px && x > 0.0
    requires Possible(p, a, snap, o) && forall y :: Largest(p, a, snap, o, y) <==> y == x
    ensures b == AfterEntry(p, a, s, LotOf(s, signalTime, snap.time, stop, px, x), x, snap.time)
            <==> EntryAt(p, a, b, s, signalTime, stop, px, snap)
  {
    hide Possible;
    hide Largest;
    hide Remove;
    var r := AfterEntry(p, a, s, LotOf(s, signalTime, snap.time, stop, px, x), x, snap.time);
    assert r.positions.items[s].notional == x;
    assert Largest(p, a, snap, o, x);
  }

  lemma EntryAtPrice(p: Params, a: State, s: Symbol, signalTime: Time, stop: real, snap: Snapshot, px: real, b: State)
    requires s in snap.bars && px == OpenPrice(p, snap.bars[s])
    ensures b == FillOne(p, snap)(a, (s, Entry(signalTime, stop)))
            <==> EntryAt(p, a, b, s, signalTime, stop, px, snap)
  {
    hide OpenPrice;
    hide RoomOf;
    hide EntryNotional;
    hide Possible;
    hide Largest;
    hide Remove;
    hide FillOne;
    hide AfterEntry;
    var o := Offer(0.0, 0.0, px, px - stop);
    var x := if stop < px then EntryNotional(p, RoomOf(p, a, snap), px, stop) else 0.0;
    EntryReaches(p, a, s, signalTime, stop, snap, px, x);
    if stop < px {
      EntryBound(p, a, snap, px, stop, o);
    }
    if EntryFills(p, a, s, stop, snap) {
      EntryStates(p, a, b, s, signalTime, stop, px, snap, x, o);
    }
  }

  lemma EntryFollows(p: Params, a: State, s: Symbol, signalTime: Time, stop: real, snap: Snapshot, b: State)
    requires s in snap.bars
    ensures b == FillOne(p, snap)(a, (s, Entry(signalTime, stop))) <==> EntryRule(p, a, b, s, signalTime, stop, snap)
  {
    hide EntryAt;
    hide FillOne;
    PricesAre(p, snap.bars[s]);
    hide Paid;
    hide OpenPrice;
    EntryAtPrice(p, a, s, signalTime, stop, snap, Paid(p, snap.bars[s]), b);
  }

  lemma MoreIs(lot: Position, stop: real, px: real, x: real)
    requires px > 0.0
    ensures Enlarged(lot, x, px, stop) == MoreOf(lot, stop, px, x)
  {
  }

  lemma AddReaches(p: Params, a: State, s: Symbol, t: Time, trailStop: real, snap: Snapshot, px: real, stop: real,
                   x: real)
    requires s in snap.bars && px == OpenPrice(p, snap.bars[s])
    requires s in a.positions.items && stop == Max(a.positions.items[s].stop, trailStop)
    requires x == AddNotional(p, RoomOf(p, a, snap), a.positions.items[s], px, stop)
    ensures FillOne(p, snap)(a, (s, Add(t, trailStop)))
            == if AddFills(p, a, s, trailStop, snap)
               then AfterAdd(p, a, s, MoreOf(a.positions.items[s], stop, px, x), x)
               else a.(pending := Remove(a.pending, s))
  {
    hide OpenPrice;
    hide RoomOf;
    hide AddNotional;
    hide Remove;
    hide Put;
    hide WithFee;
    hide FillAdd;
    hide Enlarged;
    hide MoreOf;
    FillAddIs(p, a, s, trailStop, snap);
    MoreIs(a.positions.items[s], stop, px, x);
    FeeIs(p, x);
  }

  lemma AddStates(p: Params, a: State, b: State, s: Symbol, stop: real, px: real, snap: Snapshot, x: real, o: Offer)
    requires px > 0.0 && s in a.positions.items && px > a.positions.items[s].entry && x > 0.0
    requires o == AddOffer(a.positions.items[s], stop, px) && o.price == px
    requires Possible(p, a, snap, o) && forall y :: Largest(p, a, snap, o, y) <==> y == x
    ensures b == AfterAdd(p, a, s, MoreOf(a.positions.items[s], stop, px, x), x)
            <==> AddAt(p, a, b, s, stop, px, snap)
  {
    hide Possible;
    hide AddOffer;
    hide Largest;
    hide Remove;
    var r := AfterAdd(p, a, s, MoreOf(a.positions.items[s], stop, px, x), x);
    assert r.positions.items[s].notional == a.positions.items[s].notional + x;
    assert Largest(p, a, snap, o, x);
  }

  lemma OfferIs(lot: Position, stop: real, px: real)
    requires px > 0.0
    ensures AddOffer(lot, stop, px) == Offer(ValueAt(lot, px), lot.initialRisk, px, AddGap(px, stop))
  {
  }

  lemma AddAtPrice(p: Params, a: State, s: Symbol, t: Time, trailStop: real, snap: Snapshot, px: real, stop: real,
                   b: State)
    requires s in snap.bars && px == OpenPrice(p, snap.bars[s])
    requires s in a.positions.items && stop == Max(a.positions.items[s].stop, trailStop)
    ensures b == FillOne(p, snap)(a, (s, Add(t, trailStop))) <==> AddAt(p, a, b, s, stop, px, snap)
  {
    hide OpenPrice;
    hide RoomOf;
    hide AddNotional;
    hide Possible;
    hide Largest;
    hide Remove;
    hide FillOne;
    hide AfterAdd;
    hide AddGap;
    hide ValueAt;
    var lot := a.positions.items[s];
    var o, x := AddOffer(lot, stop, px), AddNotional(p, RoomOf(p, a, snap), lot, px, stop);
    AddReaches(p, a, s, t, trailStop, snap, px, stop, x);
    OfferIs(lot, stop, px);
    hide AddOffer;
    AddBound(p, a, snap, lot, px, stop, o);
    if AddFills(p, a, s, trailStop, snap) {
      AddStates(p, a, b, s, stop, px, snap, x, o);
    }
  }

  lemma AddFollows(p: Params, a: State, s: Symbol, t: Time, trailStop: real, snap: Snapshot, b: State)
    requires s in snap.bars
    ensures b == FillOne(p, snap)(a, (s, Add(t, trailStop))) <==> AddRule(p, a, b, s, trailStop, snap)
  {
    hide AddAt;
    hide FillOne;
    PricesAre(p, snap.bars[s]);
    hide Paid;
    hide OpenPrice;
    if s in a.positions.items {
      var own := a.positions.items[s].stop;
      AddAtPrice(p, a, s, t, trailStop, snap, Paid(p, snap.bars[s]), if trailStop > own then trailStop else own, b);
    } else {
      NothingToAdd(p, a, s, t, trailStop, snap, b);
    }
  }

  lemma NothingToAdd(p: Params, a: State, s: Symbol, t: Time, trailStop: real, snap: Snapshot, b: State)
    requires s in snap.bars && s !in a.positions.items
    ensures b == FillOne(p, snap)(a, (s, Add(t, trailStop))) <==> AddRule(p, a, b, s, trailStop, snap)
  {
    PricesAre(p, snap.bars[s]);
    hide Paid;
    hide OpenPrice;
    hide AddAt;
    hide AddNotional;
    hide RoomOf;
  }

  lemma SaleIs(p: Params, a: State, s: Symbol, t: Time, px: real)
    requires s in a.positions.items
    ensures var c := Close(p, a, s, px, t, SidelineLockdown);
            Sold(p, a, c.(pending := Remove(c.pending, s)), s, t, ExitPrice(p, px))
  {
    var lot := a.positions.items[s];
    SaleTrade(p, lot, t, px);
    hide Proceeds;
    hide Cost;
    hide Fetches;
    hide SaleOf;
    hide Remove;
    hide ExitPrice;
  }

  lemma SaleTrade(p: Params, lot: Position, t: Time, px: real)
    ensures Proceeds(p, lot, px) == Fetches(p, lot, ExitPrice(p, px))
    ensures SaleOf(p, lot, t, ExitPrice(p, px))
            == Trade(lot, t, ExitPrice(p, px), Proceeds(p, lot, px) - Cost(p, lot), SidelineLockdown)
  {
    hide WithFee;
    hide ExitPrice;
    FeeIs(p, lot.quantity * ExitPrice(p, px));
    FeeIs(p, lot.notional);
  }

  lemma ExitFollows(p: Params, a: State, s: Symbol, t: Time, snap: Snapshot, b: State)
    requires s in snap.bars
    ensures b == FillOne(p, snap)(a, (s, Exit(t))) <==> ExitRule(p, a, b, s, snap)
  {
    hide Remove;
    hide Close;
    hide Sold;
    PricesAre(p, snap.bars[s]);
    hide Received;
    hide ExitPrice;
    if s in a.positions.items {
      SaleIs(p, a, s, snap.time, snap.bars[s].open);
      SaleUnique(p, a, b, FillOne(p, snap)(a, (s, Exit(t))), s, snap.time, Received(p, snap.bars[s]));
    }
  }

  lemma SaleUnique(p: Params, a: State, b: State, r: State, s: Symbol, t: Time, price: real)
    requires s in a.positions.items && Sold(p, a, r, s, t, price)
    ensures Sold(p, a, b, s, t, price) <==> b == r
  {
  }

  /** A proposal does at the open exactly what its rule says: the rule holds of the state reached and of no other. */
  lemma FillIff(p: Params, a: State, item: (Symbol, Proposal), snap: Snapshot, b: State)
    ensures b == FillOne(p, snap)(a, item) <==> FillRule(p, a, b, item, snap)
  {
    hide EntryRule;
    hide AddRule;
    hide ExitRule;
    if item.0 in snap.bars {
      match item.1 {
      case Exit(t) => ExitFollows(p, a, item.0, t, snap, b);
      case Entry(signalTime, stop) => EntryFollows(p, a, item.0, signalTime, stop, snap, b);
      case Add(t, trailStop) => AddFollows(p, a, item.0, t, trailStop, snap, b);
      }
    }
  }

  // ---------------------------------------------------------------- the opening of a bar

  /** Expiry and gap stops: a proposal whose symbol does not trade goes unless it is an exit, the order of the others
      stays; a position whose symbol opens at or below its stop is sold at that open, the others stay. */
  ghost predicate AfterGaps(p: Params, a: State, b: State, snap: Snapshot) {
    && Books(p, b) && SameMarket(a, b) && a.entered == b.entered
    && (forall k :: k in b.pending.items <==> k in a.pending.items && (k in snap.bars || a.pending.items[k].Exit?))
    && (forall k :: k in b.pending.items ==> b.pending.items[k] == a.pending.items[k])
    && (forall j, k :: Precedes(b.pending.order, j, k) ==> Precedes(a.pending.order, j, k))
    && (forall k :: k in b.positions.items <==>
          k in a.positions.items && !(k in snap.bars && snap.bars[k].open <= a.positions.items[k].stop))
    && (forall k :: k in b.positions.items ==> b.positions.items[k] == a.positions.items[k])
    && (forall k :: k in a.positions.items && k !in b.positions.items && k in snap.bars ==>
          OpenClosing(p, a.positions.items[k], snap, k) in b.trades)
    && NewTradesPriced(p, a, b, snap)
  }

  lemma {:induction false} ExpireKeepsOrder(st: State, snap: Snapshot, ks: seq<Symbol>, n: nat, j: Symbol, k: Symbol)
    requires n <= |ks| && Precedes(Fold(ExpireOne(snap), st, ks[..n]).pending.order, j, k)
    ensures Precedes(st.pending.order, j, k)
  {
    hide Fold;
    hide Remove;
    FoldEnds(ExpireOne(snap), st, ks);
    if n > 0 {
      FoldStep(ExpireOne(snap), st, ks, n - 1);
      RemoveKeepsOrder(Fold(ExpireOne(snap), st, ks[..n - 1]).pending, ks[n - 1], j, k);
      ExpireKeepsOrder(st, snap, ks, n - 1, j, k);
    }
  }

  lemma GapOne(p: Params, st: State, snap: Snapshot, s: Symbol)
    requires Books(p, st) && s in st.positions.items
    ensures var r := Fold(GapStopOne(p, snap), st, st.positions.order);
            && (s in r.positions.items <==> !(s in snap.bars && snap.bars[s].open <= st.positions.items[s].stop))
            && (s !in r.positions.items && s in snap.bars ==>
                  OpenClosing(p, st.positions.items[s], snap, s) in r.trades)
  {
    hide Fold;
    hide Books;
    hide GapStopOne;
    hide OpenClosing;
    var ks, r := st.positions.order, Fold(GapStopOne(p, snap), st, st.positions.order);
    FoldEnds(GapStopOne(p, snap), st, ks);
    assert ks[..|ks|] == ks && s in ks;
    if s in snap.bars {
      GapFoldLeaves(p, st, snap, ks, |ks|, s, st.positions.items[s]);
      GapBelow(p, st, snap);
      assert AboveGap(r, snap, s);
      GapStopEffect(p, st, snap);
    } else {
      GapStopSkips(p, st, snap);
    }
  }

  lemma GapsDone(p: Params, st: State, snap: Snapshot)
    requires Books(p, st)
    ensures var s1 := Fold(ExpireOne(snap), st, st.pending.order);
            AfterGaps(p, st, Fold(GapStopOne(p, snap), s1, s1.positions.order), snap)
  {
    hide Fold;
    hide Books;
    hide ExpireOne;
    hide GapStopOne;
    hide OpenClosing;
    hide Precedes;
    hide Priced;
    hide TradesFrom;
    var ps := st.pending.order;
    var s1 := Fold(ExpireOne(snap), st, ps);
    ExpireEffect(st, snap);
    FoldEnds(ExpireOne(snap), st, ps);
    SameBooksKeep(p, st, s1);
    var ks := s1.positions.order;
    var s2 := Fold(GapStopOne(p, snap), s1, ks);
    FoldEnds(GapStopOne(p, snap), s1, ks);
    GapStopEffect(p, s1, snap);
    GapFoldPriced(p, s1, snap, ks, |ks|);
    forall j, k | Precedes(s2.pending.order, j, k) ensures Precedes(st.pending.order, j, k) {
      ExpireKeepsOrder(st, snap, ps, |ps|, j, k);
    }
    forall k | k in s1.positions.items
      ensures k in s2.positions.items <==> !(k in snap.bars && snap.bars[k].open <= s1.positions.items[k].stop)
      ensures k !in s2.positions.items && k in snap.bars ==>
                OpenClosing(p, s1.positions.items[k], snap, k) in s2.trades
    {
      GapOne(p, s1, snap, k);
    }
  }

  /** The opening of a bar: after expiry and gap stops the proposals are taken one by one in the order in which they
      were made, each by its rule, on what the ones before it left. */
  lemma OpeningWrittenOut(p: Params, st: State, snap: Snapshot) returns (chain: seq<State>)
    requires Books(p, st)
    ensures chain != [] && AfterGaps(p, st, chain[0], snap)
    ensures var todo := chain[0].pending;
            && |chain| == |todo.order| + 1
            && (forall i :: 0 <= i < |todo.order| ==>
                  && todo.order[i] in todo.items
                  && FillRule(p, chain[i], chain[i + 1], (todo.order[i], todo.items[todo.order[i]]), snap))
    ensures chain[|chain| - 1] == OpenPhase(p, st, snap)
  {
    hide Fold;
    hide Books;
    hide ExpireOne;
    hide GapStopOne;
    hide FillOne;
    hide FillRule;
    hide AfterGaps;
    var s1 := Fold(ExpireOne(snap), st, st.pending.order);
    var s2 := Fold(GapStopOne(p, snap), s1, s1.positions.order);
    GapsDone(p, st, snap);
    OrderPresent(s2.pending);
    var items := Entries(s2.pending);
    FoldEnds(FillOne(p, snap), s2, items);
    chain := seq(|items| + 1, i requires 0 <= i <= |items| => Fold(FillOne(p, snap), s2, items[..i]));
    forall i | 0 <= i < |items| ensures FillRule(p, chain[i], chain[i + 1], items[i], snap) {
      FoldStep(FillOne(p, snap), s2, items, i);
      FillIff(p, chain[i], items[i], snap, chain[i + 1]);
    }
  }
}
