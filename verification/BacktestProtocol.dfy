/** The pending-proposal protocol and the books, over every bar and every run. */
module BacktestProtocol {
  import opened OrderedDict
  import opened BacktestModel
  import opened BacktestBooks

  // ---------------------------------------------------------------- loops over a key list

  lemma FoldStep<S, K>(step: (S, K) -> S, s: S, ks: seq<K>, n: nat)
    requires n < |ks|
    ensures Fold(step, s, ks[..n + 1]) == step(Fold(step, s, ks[..n]), ks[n])
  {
    assert ks[..n + 1][..n] == ks[..n];
  }

  lemma FoldEnds<S, K>(step: (S, K) -> S, s: S, ks: seq<K>)
    ensures Fold(step, s, ks[..0]) == s
    ensures Fold(step, s, ks[..|ks|]) == Fold(step, s, ks)
  {
    assert ks[..|ks|] == ks;
  }

  // ---------------------------------------------------------------- what the phases may change

  /** Only the pending proposals differ. */
  ghost predicate OnlyPending(a: State, b: State) {
    a.(pending := b.pending) == b
  }

  ghost predicate SameLot(a: Position, b: Position) {
    a.symbol == b.symbol && a.signalTime == b.signalTime && a.entryTime == b.entryTime && a.entry == b.entry
  }

  /** Every trade was there before, or closes a lot that was open before. */
  ghost predicate TradesFrom(a: State, b: State) {
    forall i :: 0 <= i < |b.trades| ==>
      || b.trades[i] in a.trades
      || (b.trades[i].lot.symbol in a.positions.items
        && SameLot(a.positions.items[b.trades[i].lot.symbol], b.trades[i].lot))
  }

  /** Only closings: what is still open is unchanged, and only cash and trades differ besides. */
  ghost predicate OnlyCloses(a: State, b: State) {
    && a.(cash := b.cash, positions := b.positions, trades := b.trades) == b
    && (forall s :: s in b.positions.items ==> s in a.positions.items && b.positions.items[s] == a.positions.items[s])
    && TradesFrom(a, b)
  }

  lemma CloseOnlyCloses(p: Params, a: State, st: State, s: Symbol, px: real, t: Time, reason: Reason)
    requires OnlyCloses(a, st) && s in st.positions.items && Books(p, st)
    ensures OnlyCloses(a, Close(p, st, s, px, t, reason))
  {
    hide Proceeds;
    hide Balanced;
    hide Logged;
    hide TradesSound;
    hide Sound;
  }

  ghost predicate Fits(p: Params, prop: Proposal, pos: Position) {
    prop.Add? ==> pos.additions < p.maxAdditions
  }

  /** What execution of the pending list needs. */
  ghost predicate Executable(p: Params, st: State) {
    forall s :: s in st.pending.items ==>
      && (st.pending.items[s].Entry? ==> st.pending.items[s].stop > 0.0)
      && (s in st.positions.items ==> Fits(p, st.pending.items[s], st.positions.items[s]))
  }

  /** The protocol at the end of every bar. */
  ghost predicate Protocol(p: Params, st: State, now: Time) {
    && Executable(p, st)
    && (forall s :: s in st.pending.items ==>
          && (st.pending.items[s].Entry? <==> s !in st.positions.items)
          && (!st.pending.items[s].Exit? ==> st.pending.items[s].signalTime == now && !st.lockdown)
          && (st.pending.items[s].Add? && s in st.positions.items ==>
                st.pending.items[s].trailStop == st.positions.items[s].stop))
    && (st.lockdown ==> forall s :: s in st.positions.items ==> s in st.pending.items && st.pending.items[s].Exit?)
  }

  // ---------------------------------------------------------------- phase 1

  ghost predicate ExpireKeeps(snap: Snapshot, a: State, b: State) {
    && OnlyPending(a, b)
    && (forall s :: s in b.pending.items ==> s in a.pending.items && b.pending.items[s] == a.pending.items[s])
    && (forall s :: s in a.pending.items && (s in snap.bars || a.pending.items[s].Exit?) ==> s in b.pending.items)
  }

  ghost predicate Unexpired(snap: Snapshot, st: State, s: Symbol) {
    s in st.pending.items ==> s in snap.bars || st.pending.items[s].Exit?
  }

  lemma {:induction false} ExpireFold(st: State, snap: Snapshot, ks: seq<Symbol>, n: nat)
    requires n <= |ks|
    ensures var r := Fold(ExpireOne(snap), st, ks[..n]);
            ExpireKeeps(snap, st, r) && forall i :: 0 <= i < n ==> Unexpired(snap, r, ks[i])
  {
    hide Fold;
    FoldEnds(ExpireOne(snap), st, ks);
    if n > 0 {
      ExpireFold(st, snap, ks, n - 1);
      FoldStep(ExpireOne(snap), st, ks, n - 1);
    }
  }

  /** After expiry the pending proposals are those that trade now, and the exits. */
  lemma ExpireEffect(st: State, snap: Snapshot)
    ensures var r := Fold(ExpireOne(snap), st, st.pending.order);
            && ExpireKeeps(snap, st, r)
            && (forall s :: s in r.pending.items ==> s in snap.bars || r.pending.items[s].Exit?)
  {
    hide Fold;
    var ks := st.pending.order;
    var r := Fold(ExpireOne(snap), st, ks);
    ExpireFold(st, snap, ks, |ks|);
    FoldEnds(ExpireOne(snap), st, ks);
    forall s | s in r.pending.items ensures Unexpired(snap, r, s) {
      assert s in ks;
      var i :| 0 <= i < |ks| && ks[i] == s;
    }
  }

  // ---------------------------------------------------------------- phases that only close

  ghost predicate ClosedWell(p: Params, a: State, b: State) {
    OnlyCloses(a, b) && Books(p, b)
  }

  lemma {:induction false} GapStopFold(p: Params, st: State, snap: Snapshot, ks: seq<Symbol>, n: nat)
    requires n <= |ks| && Books(p, st)
    ensures ClosedWell(p, st, Fold(GapStopOne(p, snap), st, ks[..n]))
  {
    hide Fold;
    hide Books;
    FoldEnds(GapStopOne(p, snap), st, ks);
    if n > 0 {
      GapStopFold(p, st, snap, ks, n - 1);
      GapStopStep(p, st, Fold(GapStopOne(p, snap), st, ks[..n - 1]), snap, ks[n - 1]);
      FoldStep(GapStopOne(p, snap), st, ks, n - 1);
    }
  }

  lemma GapStopEffect(p: Params, st: State, snap: Snapshot)
    requires Books(p, st)
    ensures ClosedWell(p, st, Fold(GapStopOne(p, snap), st, st.positions.order))
  {
    hide *;
    GapStopFold(p, st, snap, st.positions.order, |st.positions.order|);
    FoldEnds(GapStopOne(p, snap), st, st.positions.order);
  }

  lemma GapStopStep(p: Params, st: State, x: State, snap: Snapshot, s: Symbol)
    requires ClosedWell(p, st, x)
    ensures ClosedWell(p, st, GapStopOne(p, snap)(x, s))
  {
    hide Books;
    hide Close;
    hide OnlyCloses;
    if s in x.positions.items && s in snap.bars && snap.bars[s].open <= x.positions.items[s].stop {
      CloseKeepsBooks(p, x, s, snap.bars[s].open, snap.time, GapStop);
      CloseOnlyCloses(p, st, x, s, snap.bars[s].open, snap.time, GapStop);
    }
  }

  ghost predicate AboveStop(snap: Snapshot, st: State, s: Symbol) {
    s in st.positions.items && s in snap.bars ==> st.positions.items[s].stop < snap.bars[s].low
  }

  lemma {:induction false} StopFold(p: Params, st: State, snap: Snapshot, ks: seq<Symbol>, n: nat)
    requires n <= |ks| && Books(p, st)
    ensures var r := Fold(StopOne(p, snap), st, ks[..n]);
            ClosedWell(p, st, r) && forall i :: 0 <= i < n ==> AboveStop(snap, r, ks[i])
  {
    hide Fold;
    hide Books;
    FoldEnds(StopOne(p, snap), st, ks);
    if n > 0 {
      StopFold(p, st, snap, ks, n - 1);
      StopStep(p, st, Fold(StopOne(p, snap), st, ks[..n - 1]), snap, ks[n - 1]);
      FoldStep(StopOne(p, snap), st, ks, n - 1);
    }
  }

  /** No position that traded through its stop survives the bar. */
  lemma StopEffect(p: Params, st: State, snap: Snapshot)
    requires Books(p, st)
    ensures var r := Fold(StopOne(p, snap), st, st.positions.order);
            ClosedWell(p, st, r) && forall s :: s in r.positions.items ==> AboveStop(snap, r, s)
  {
    hide Fold;
    hide Books;
    hide AboveStop;
    var ks := st.positions.order;
    var r := Fold(StopOne(p, snap), st, ks);
    StopFold(p, st, snap, ks, |ks|);
    FoldEnds(StopOne(p, snap), st, ks);
    forall s | s in r.positions.items ensures AboveStop(snap, r, s) {
      assert s in ks;
      var i :| 0 <= i < |ks| && ks[i] == s;
    }
  }

  lemma StopStep(p: Params, st: State, x: State, snap: Snapshot, s: Symbol)
    requires ClosedWell(p, st, x)
    ensures ClosedWell(p, st, StopOne(p, snap)(x, s)) && AboveStop(snap, StopOne(p, snap)(x, s), s)
    ensures forall k :: AboveStop(snap, x, k) ==> AboveStop(snap, StopOne(p, snap)(x, s), k)
  {
    hide Books;
    hide OnlyCloses;
    if s in x.positions.items && s in snap.bars && snap.bars[s].low <= x.positions.items[s].stop {
      CloseKeepsBooks(p, x, s, x.positions.items[s].stop, snap.time, Stop);
      CloseOnlyCloses(p, st, x, s, x.positions.items[s].stop, snap.time, Stop);
    }
  }

  lemma LiquidateStep(p: Params, st: State, x: State, last: Snapshot, s: Symbol)
    requires ClosedWell(p, st, x)
    ensures ClosedWell(p, st, LiquidateOne(p, last)(x, s))
  {
    hide Books;
    hide Close;
    hide OnlyCloses;
    if s in x.positions.items {
      CloseKeepsBooks(p, x, s, FinalPrice(x, s, last), last.time, EndOfData);
      CloseOnlyCloses(p, st, x, s, FinalPrice(x, s, last), last.time, EndOfData);
    }
  }

  lemma {:induction false} LiquidateFold(p: Params, st: State, last: Snapshot, ks: seq<Symbol>, n: nat)
    requires n <= |ks| && Books(p, st)
    ensures var r := Fold(LiquidateOne(p, last), st, ks[..n]);
            ClosedWell(p, st, r) && forall i :: 0 <= i < n ==> ks[i] !in r.positions.items
  {
    hide Fold;
    hide Books;
    FoldEnds(LiquidateOne(p, last), st, ks);
    if n > 0 {
      LiquidateFold(p, st, last, ks, n - 1);
      LiquidateStep(p, st, Fold(LiquidateOne(p, last), st, ks[..n - 1]), last, ks[n - 1]);
      FoldStep(LiquidateOne(p, last), st, ks, n - 1);
    }
  }

  /** The final liquidation leaves nothing open. */
  lemma LiquidateEffect(p: Params, st: State, last: Snapshot)
    requires Books(p, st)
    ensures var r := Liquidated(p, st, last);
            ClosedWell(p, st, r) && forall s :: s !in r.positions.items
  {
    hide Fold;
    hide Books;
    var ks := st.positions.order;
    var r := Liquidated(p, st, last);
    LiquidateFold(p, st, last, ks, |ks|);
    FoldEnds(LiquidateOne(p, last), st, ks);
    assert forall s :: s in r.positions.items ==> s in ks;
  }

  // ---------------------------------------------------------------- phase 3: fills

  /** Nothing about key k differs. */
  ghost predicate Untouched(a: State, b: State, k: Symbol) {
    && (k in a.positions.items <==> k in b.positions.items)
    && (k in a.positions.items ==> a.positions.items[k] == b.positions.items[k])
    && (k in a.pending.items <==> k in b.pending.items)
    && (k in a.pending.items ==> a.pending.items[k] == b.pending.items[k])
  }

  /** The same lot, with a stop that did not fall and at most one addition, made by an add proposal. */
  ghost predicate Carried(a: Position, b: Position, prop: Proposal) {
    && SameLot(a, b) && a.stop <= b.stop
    && (b == a || (prop.Add? && b.additions == a.additions + 1))
  }

  ghost predicate Fresh(b: Position, prop: Proposal, k: Symbol, snap: Snapshot) {
    && prop.Entry? && b.symbol == k && b.signalTime == prop.signalTime && b.entryTime == snap.time
    && b.stop == prop.stop && b.additions == 0
  }

  /** What executing one proposal may do to its own key. */
  ghost predicate Filled(a: State, b: State, k: Symbol, prop: Proposal, snap: Snapshot) {
    && k !in b.pending.items
    && (prop.Exit? ==> k !in b.positions.items)
    && (k in b.positions.items ==>
          || (k in a.positions.items && Carried(a.positions.items[k], b.positions.items[k], prop))
          || (k !in a.positions.items && Fresh(b.positions.items[k], prop, k, snap)))
  }

  ghost predicate SameMarket(a: State, b: State) {
    a.histories == b.histories && a.benchmarks == b.benchmarks && a.lockdown == b.lockdown
  }

  ghost predicate ClosesLot(a: State, b: State, lot: Position) {
    |b.trades| == |a.trades| + 1 && a.trades <= b.trades && b.trades[|a.trades|].lot == lot
  }

  lemma ExecuteTouches(p: Params, st: State, s: Symbol, prop: Proposal, snap: Snapshot)
    requires s in snap.bars
    ensures var r := Execute(p, st, s, prop, snap);
            && r.pending == st.pending && SameMarket(st, r)
            && (r.trades == st.trades || (s in st.positions.items && ClosesLot(st, r, st.positions.items[s])))
            && (forall k :: k != s ==> Untouched(st, r, k))
            && Filled(st, r.(pending := Remove(r.pending, s)), s, prop, snap)
  {
    hide FillEntry;
    hide FillAdd;
    hide Enlarged;
    hide EntryNotional;
    hide AddNotional;
    hide RoomOf;
    hide WithFee;
    match prop
    case Exit(_) =>
    case Entry(signalTime, stop) =>
      FillEntryIs(p, st, s, signalTime, stop, snap);
    case Add(_, trailStop) =>
      FillAddIs(p, st, s, trailStop, snap);
      if AddFills(p, st, s, trailStop, snap) {
        var pos := st.positions.items[s];
        EnlargedLotKept(pos, AddNotional(p, RoomOf(p, st, snap), pos, OpenPrice(p, snap.bars[s]),
          Max(pos.stop, trailStop)),
                        OpenPrice(p, snap.bars[s]), Max(pos.stop, trailStop));
      }
  }

  lemma EnlargedLotKept(pos: Position, x: real, openPx: real, newStop: real)
    requires openPx > 0.0
    ensures var b := Enlarged(pos, x, openPx, newStop);
            SameLot(pos, b) && b.stop == newStop && b.additions == pos.additions + 1
  {
  }

  lemma FillOneTouches(p: Params, st: State, item: (Symbol, Proposal), snap: Snapshot)
    ensures var r := FillOne(p, snap)(st, item);
            && SameMarket(st, r)
            && (r.trades == st.trades || (item.0 in st.positions.items && ClosesLot(st, r, st.positions.items[item.0])))
            && (forall k :: k != item.0 ==> Untouched(st, r, k))
            && (if item.0 in snap.bars then Filled(st, r, item.0, item.1, snap) else r == st)
  {
    hide Execute;
    hide Filled;
    if item.0 in snap.bars {
      ExecuteTouches(p, st, item.0, item.1, snap);
      var mid := Execute(p, st, item.0, item.1, snap);
      var r := mid.(pending := Remove(mid.pending, item.0));
      forall k | k != item.0 ensures Untouched(st, r, k) {
        assert Untouched(st, mid, k);
      }
    }
  }

  lemma FillOneKeepsBooks(p: Params, st: State, item: (Symbol, Proposal), snap: Snapshot)
    requires Books(p, st)
    requires item.1.Entry? ==> item.1.stop > 0.0
    requires item.0 in st.positions.items ==> Fits(p, item.1, st.positions.items[item.0])
    ensures Books(p, FillOne(p, snap)(st, item))
  {
    hide Books;
    hide FillEntry;
    hide FillAdd;
    hide Close;
    if item.0 in snap.bars {
      match item.1 {
      case Exit(_) =>
        if item.0 in st.positions.items {
          CloseKeepsBooks(p, st, item.0, snap.bars[item.0].open, snap.time, SidelineLockdown);
        }
      case Entry(signalTime, stop) => FillEntryKeepsBooks(p, st, item.0, signalTime, stop, snap);
      case Add(_, trailStop) => FillAddKeepsBooks(p, st, item.0, trailStop, snap);
      }
      var r := Execute(p, st, item.0, item.1, snap);
      SameBooksKeep(p, r, r.(pending := Remove(r.pending, item.0)));
    }
  }

  /** What the first n executions have done, key by key. */
  ghost predicate FilledUpTo(a: State, b: State, items: seq<(Symbol, Proposal)>, n: nat, snap: Snapshot)
    requires n <= |items|
  {
    && SameMarket(a, b) && TradesFrom(a, b)
    && (forall k :: (forall j :: 0 <= j < n ==> items[j].0 != k) ==> Untouched(a, b, k))
    && (forall j :: 0 <= j < n ==>
          if items[j].0 in snap.bars then Filled(a, b, items[j].0, items[j].1, snap) else Untouched(a, b, items[j].0))
  }

  ghost predicate DistinctKeys(items: seq<(Symbol, Proposal)>) {
    forall i, j :: 0 <= i < j < |items| ==> items[i].0 != items[j].0
  }

  lemma FilledUpToStep(p: Params, a: State, b: State, items: seq<(Symbol, Proposal)>, n: nat, snap: Snapshot)
    requires n < |items| && DistinctKeys(items) && FilledUpTo(a, b, items, n, snap)
    requires items[n].0 in b.positions.items ==> b.positions.items[items[n].0].symbol == items[n].0
    ensures FilledUpTo(a, FillOne(p, snap)(b, items[n]), items, n + 1, snap)
  {
    hide FillOne;
    var r := FillOne(p, snap)(b, items[n]);
    FillOneTouches(p, b, items[n], snap);
    assert Untouched(a, b, items[n].0) by {
      assert forall j :: 0 <= j < n ==> items[j].0 != items[n].0;
    }
    forall k | forall j :: 0 <= j < n + 1 ==> items[j].0 != k ensures Untouched(a, r, k) {
      assert items[n].0 != k;
      assert Untouched(a, b, k) && Untouched(b, r, k);
    }
    forall j | 0 <= j < n + 1
      ensures if items[j].0 in snap.bars then Filled(a, r, items[j].0, items[j].1, snap)
                else Untouched(a, r, items[j].0)
    {
      if j < n {
        assert Untouched(b, r, items[j].0);
      }
    }
  }

  lemma BooksKeys(p: Params, st: State)
    requires Books(p, st)
    ensures forall s :: s in st.positions.items ==> st.positions.items[s].symbol == s
  {
  }

  lemma {:induction false} FillFold(p: Params, st: State, snap: Snapshot, items: seq<(Symbol, Proposal)>, n: nat)
    requires n <= |items| && DistinctKeys(items) && Books(p, st)
    requires forall j :: 0 <= j < |items| ==>
               && (items[j].1.Entry? ==> items[j].1.stop > 0.0)
               && (items[j].0 in st.positions.items ==> Fits(p, items[j].1, st.positions.items[items[j].0]))
    ensures var r := Fold(FillOne(p, snap), st, items[..n]);
            Books(p, r) && FilledUpTo(st, r, items, n, snap)
  {
    hide Fold;
    hide Books;
    hide FillOne;
    FoldEnds(FillOne(p, snap), st, items);
    if n > 0 {
      FillFold(p, st, snap, items, n - 1);
      var r := Fold(FillOne(p, snap), st, items[..n - 1]);
      assert Untouched(st, r, items[n - 1].0) by {
        assert forall j :: 0 <= j < n - 1 ==> items[j].0 != items[n - 1].0;
      }
      FillOneKeepsBooks(p, r, items[n - 1], snap);
      BooksKeys(p, r);
      FilledUpToStep(p, st, r, items, n - 1, snap);
      FoldStep(FillOne(p, snap), st, items, n - 1);
    }
  }

  lemma EntriesDistinct<V>(d: Dict<V>)
    ensures |Entries(d)| == |d.order|
    ensures forall i, j :: 0 <= i < j < |Entries(d)| ==> Entries(d)[i].0 != Entries(d)[j].0
    ensures forall i :: 0 <= i < |Entries(d)| ==>
              Entries(d)[i].0 in d.items && Entries(d)[i].1 == d.items[Entries(d)[i].0]
    ensures forall k :: k in d.items ==> exists i :: 0 <= i < |Entries(d)| && Entries(d)[i].0 == k
  {
    OrderPresent(d);
    forall k | k in d.items ensures exists i :: 0 <= i < |Entries(d)| && Entries(d)[i].0 == k {
      assert k in d.order;
      var i :| 0 <= i < |d.order| && d.order[i] == k;
      assert Entries(d)[i].0 == k;
    }
  }

  /** How a position found after the opening of a bar came about. */
  ghost predicate OpenedFrom(a: State, b: State, s: Symbol, snap: Snapshot)
    requires s in b.positions.items
  {
    var pos := b.positions.items[s];
    || (s in a.positions.items && SameLot(a.positions.items[s], pos) && a.positions.items[s].stop <= pos.stop
        && (s in a.pending.items && s in snap.bars ==> !a.pending.items[s].Exit?))
    || (s in a.pending.items && s in snap.bars && Fresh(pos, a.pending.items[s], s, snap))
  }

  /** After the opening of a bar the books hold, only exits of symbols that do not trade are pending,
      each open position was carried over or freshly entered, and no exit that could trade survived. */
  ghost predicate Opened(p: Params, a: State, b: State, snap: Snapshot) {
    && Books(p, b) && SameMarket(a, b) && TradesFrom(a, b)
    && (forall s :: s in b.pending.items ==>
          s in a.pending.items && b.pending.items[s] == a.pending.items[s] && b.pending.items[s].Exit?
            && s !in snap.bars
          && (s in a.positions.items ==> s in b.positions.items))
    && (forall s :: s in b.positions.items ==> OpenedFrom(a, b, s, snap))
  }

  lemma ExecutableShrinks(p: Params, a: State, b: State)
    requires Executable(p, a)
    requires forall s :: s in b.pending.items ==> s in a.pending.items && b.pending.items[s] == a.pending.items[s]
    requires forall s :: s in b.positions.items ==>
               s in a.positions.items && b.positions.items[s] == a.positions.items[s]
    ensures Executable(p, b)
  {
  }

  lemma OpenPhaseEffect(p: Params, st: State, snap: Snapshot)
    requires Books(p, st) && Executable(p, st)
    ensures Opened(p, st, OpenPhase(p, st, snap), snap)
  {
    hide Fold;
    hide Books;
    hide FillOne;
    hide GapStopOne;
    hide ExpireOne;
    hide Entries;
    var s1 := Fold(ExpireOne(snap), st, st.pending.order);
    ExpireEffect(st, snap);
    SameBooksKeep(p, st, s1);
    var s2 := Fold(GapStopOne(p, snap), s1, s1.positions.order);
    GapStopEffect(p, s1, snap);
    GapStopSkips(p, s1, snap);
    var items := Entries(s2.pending);
    EntriesDistinct(s2.pending);
    ExecutableShrinks(p, st, s2);
    forall j | 0 <= j < |items|
      ensures items[j].1.Entry? ==> items[j].1.stop > 0.0
      ensures items[j].0 in s2.positions.items ==> Fits(p, items[j].1, s2.positions.items[items[j].0])
    {
      var k := items[j].0;
      assert k in s2.pending.items && items[j].1 == s2.pending.items[k];
    }
    FillFold(p, s2, snap, items, |items|);
    FoldEnds(FillOne(p, snap), s2, items);
    var s3 := Fold(FillOne(p, snap), s2, items);
    OpenPhaseSummary(p, st, s1, s2, s3, items, snap);
  }

  lemma {:induction false} GapStopSkipsFold(p: Params, st: State, snap: Snapshot, ks: seq<Symbol>, n: nat)
    requires n <= |ks|
    ensures forall s :: s in st.positions.items && s !in snap.bars ==>
              s in Fold(GapStopOne(p, snap), st, ks[..n]).positions.items
  {
    hide Fold;
    FoldEnds(GapStopOne(p, snap), st, ks);
    if n > 0 {
      GapStopSkipsFold(p, st, snap, ks, n - 1);
      FoldStep(GapStopOne(p, snap), st, ks, n - 1);
    }
  }

  /** A symbol that does not trade is not closed. */
  lemma GapStopSkips(p: Params, st: State, snap: Snapshot)
    ensures forall s :: s in st.positions.items && s !in snap.bars ==>
              s in Fold(GapStopOne(p, snap), st, st.positions.order).positions.items
  {
    hide Fold;
    GapStopSkipsFold(p, st, snap, st.positions.order, |st.positions.order|);
    FoldEnds(GapStopOne(p, snap), st, st.positions.order);
  }

  lemma OpenPhaseSummary(p: Params, st: State, s1: State, s2: State, s3: State,
                         items: seq<(Symbol, Proposal)>, snap: Snapshot)
    requires ExpireKeeps(snap, st, s1)
    requires forall s :: s in s1.pending.items ==> s in snap.bars || s1.pending.items[s].Exit?
    requires OnlyCloses(s1, s2) && Books(p, s3)
    requires forall s :: s in s1.positions.items && s !in snap.bars ==> s in s2.positions.items
    requires forall j :: 0 <= j < |items| ==>
               items[j].0 in s2.pending.items && items[j].1 == s2.pending.items[items[j].0]
    requires forall k :: k in s2.pending.items ==> exists i :: 0 <= i < |items| && items[i].0 == k
    requires FilledUpTo(s2, s3, items, |items|, snap)
    ensures Opened(p, st, s3, snap)
  {
    hide Books;
    forall s | s in s3.pending.items
      ensures s in st.pending.items && s3.pending.items[s] == st.pending.items[s] && s3.pending.items[s].Exit?
                && s !in snap.bars
      ensures s in st.positions.items ==> s in s3.positions.items
    {
      KeyOutcome(s2, s3, items, s, snap);
    }
    forall s | s in s3.positions.items ensures OpenedFrom(st, s3, s, snap) {
      KeyOutcome(s2, s3, items, s, snap);
    }
  }

  lemma KeyOutcome(a: State, b: State, items: seq<(Symbol, Proposal)>, s: Symbol, snap: Snapshot)
    requires forall j :: 0 <= j < |items| ==> items[j].0 in a.pending.items && items[j].1 == a.pending.items[items[j].0]
    requires forall k :: k in a.pending.items ==> exists i :: 0 <= i < |items| && items[i].0 == k
    requires FilledUpTo(a, b, items, |items|, snap)
    ensures if s in a.pending.items && s in snap.bars then Filled(a, b, s, a.pending.items[s], snap)
              else Untouched(a, b, s)
  {
    hide Filled;
    hide Untouched;
    if s in a.pending.items {
      var i :| 0 <= i < |items| && items[i].0 == s;
    }
  }

  // ---------------------------------------------------------------- phases 5 to 8

  ghost predicate ExitsSet(a: State, b: State, snap: Snapshot, done: seq<Symbol>) {
    && OnlyPending(a, b)
    && (forall s :: s in done ==> s in b.pending.items && b.pending.items[s] == Exit(snap.time))
    && (forall s :: s !in done ==> Untouched(a, b, s))
  }

  lemma {:induction false} ExitsFold(st: State, snap: Snapshot, ks: seq<Symbol>, n: nat)
    requires n <= |ks|
    ensures ExitsSet(st, Fold(ExitNext(snap), st, ks[..n]), snap, ks[..n])
  {
    hide Fold;
    FoldEnds(ExitNext(snap), st, ks);
    if n > 0 {
      ExitsFold(st, snap, ks, n - 1);
      FoldStep(ExitNext(snap), st, ks, n - 1);
      assert ks[..n] == ks[..n - 1] + [ks[n - 1]];
    }
  }

  /** Lockdown replaces whatever is pending for a held symbol by an exit. */
  lemma LockdownEffect(p: Params, st: State, snap: Snapshot)
    ensures var r := LockdownPhase(p, st, snap);
            && st.(pending := r.pending, benchmarks := r.benchmarks, lockdown := r.lockdown) == r
            && r.benchmarks == st.benchmarks + [snap.benchmark]
            && (forall s :: s in st.positions.items && r.lockdown ==>
                  s in r.pending.items && r.pending.items[s] == Exit(snap.time))
            && (forall s :: s !in st.positions.items || !r.lockdown ==>
                  && (s in r.pending.items <==> s in st.pending.items)
                  && (s in r.pending.items ==> r.pending.items[s] == st.pending.items[s]))
  {
    hide Fold;
    hide Locked;
    var b := st.benchmarks + [snap.benchmark];
    var s1 := st.(benchmarks := b, lockdown := Locked(p, b));
    if s1.lockdown {
      var ks := s1.positions.order;
      ExitsFold(s1, snap, ks, |ks|);
      FoldEnds(ExitNext(snap), s1, ks);
      assert ks[..|ks|] == ks;
    }
  }

  ghost predicate Ratcheted(p: Params, a: State, b: State) {
    && a.(positions := b.positions) == b
    && (forall s :: s in a.positions.items <==> s in b.positions.items)
    && (forall s :: s in b.positions.items ==>
          a.positions.items[s].(stop := b.positions.items[s].stop) == b.positions.items[s]
          && a.positions.items[s].stop <= b.positions.items[s].stop)
  }

  lemma RatchetStep(p: Params, st: State, x: State, snap: Snapshot, s: Symbol)
    requires Books(p, x) && Ratcheted(p, st, x)
    ensures Books(p, RatchetOne(p, snap)(x, s)) && Ratcheted(p, st, RatchetOne(p, snap)(x, s))
  {
    hide Books;
    hide StopLevel;
    if s in x.positions.items && s in snap.bars {
      RatchetKeepsBooks(p, x, s, Max(x.positions.items[s].stop, StopLevel(p, snap.bars[s])));
    }
  }

  lemma {:induction false} RatchetFold(p: Params, st: State, snap: Snapshot, ks: seq<Symbol>, n: nat)
    requires n <= |ks| && Books(p, st)
    ensures var r := Fold(RatchetOne(p, snap), st, ks[..n]); Books(p, r) && Ratcheted(p, st, r)
  {
    hide Fold;
    hide Books;
    hide RatchetOne;
    FoldEnds(RatchetOne(p, snap), st, ks);
    if n > 0 {
      RatchetFold(p, st, snap, ks, n - 1);
      RatchetStep(p, st, Fold(RatchetOne(p, snap), st, ks[..n - 1]), snap, ks[n - 1]);
      FoldStep(RatchetOne(p, snap), st, ks, n - 1);
    }
  }

  /** New pending proposals are additions to held positions, made outside lockdown. */
  ghost predicate AddsProposed(p: Params, a: State, b: State, snap: Snapshot) {
    && OnlyPending(a, b)
    && (forall s :: s in a.pending.items ==> s in b.pending.items && b.pending.items[s] == a.pending.items[s])
    && (forall s :: s in b.pending.items && s !in a.pending.items ==>
          && b.pending.items[s].Add? && b.pending.items[s].signalTime == snap.time && !b.lockdown
          && s in b.positions.items && Fits(p, b.pending.items[s], b.positions.items[s])
          && b.pending.items[s].trailStop == b.positions.items[s].stop)
  }

  lemma {:induction false} AddsFold(p: Params, st: State, snap: Snapshot, ks: seq<Symbol>, n: nat)
    requires n <= |ks|
    ensures AddsProposed(p, st, Fold(ProposeAddOne(p, snap), st, ks[..n]), snap)
  {
    hide Fold;
    hide HistoryOf;
    FoldEnds(ProposeAddOne(p, snap), st, ks);
    if n > 0 {
      AddsFold(p, st, snap, ks, n - 1);
      FoldStep(ProposeAddOne(p, snap), st, ks, n - 1);
    }
  }

  /** New pending proposals are entries for symbols not held, made outside lockdown. */
  ghost predicate EntriesProposed(a: State, b: State, snap: Snapshot) {
    && a.(pending := b.pending, histories := b.histories) == b
    && (forall s :: s in a.pending.items && s in a.positions.items ==>
          s in b.pending.items && b.pending.items[s] == a.pending.items[s])
    && (forall s :: s in b.pending.items ==>
          || (s in a.pending.items && b.pending.items[s] == a.pending.items[s])
          || (&& b.pending.items[s].Entry? && b.pending.items[s].signalTime == snap.time
            && b.pending.items[s].stop > 0.0
              && !b.lockdown && s !in b.positions.items))
  }

  lemma SignalStep(p: Params, st: State, x: State, snap: Snapshot, s: Symbol)
    requires EntriesProposed(st, x, snap)
    ensures EntriesProposed(st, SignalOne(p, snap)(x, s), snap)
  {
    hide CorrelationOk;
    hide HistoryOf;
    hide StopLevel;
  }

  lemma {:induction false} SignalFold(p: Params, st: State, snap: Snapshot, ks: seq<Symbol>, n: nat)
    requires n <= |ks|
    ensures EntriesProposed(st, Fold(SignalOne(p, snap), st, ks[..n]), snap)
  {
    hide Fold;
    hide SignalOne;
    FoldEnds(SignalOne(p, snap), st, ks);
    if n > 0 {
      SignalFold(p, st, snap, ks, n - 1);
      SignalStep(p, st, Fold(SignalOne(p, snap), st, ks[..n - 1]), snap, ks[n - 1]);
      FoldStep(SignalOne(p, snap), st, ks, n - 1);
    }
  }
}
