/** The tables of the label resolver and the hourly bars, written out on the rows. */
module ResolverRules {
  import opened Common
  import opened HourBars
  import opened LabelResolver

  // ---------------------------------------------------------------- hourly bars

  /** Every bar is four consecutive quarter-hours: the open of the first, the close of the last, and a high and a low
      that bound all four and are reached. */
  lemma BarWrittenOut(rows: seq<HourBars.Row>, h1: seq<Bar>, i: nat) returns (k: nat)
    requires Increasing(rows) && IsAggregation(rows, h1) && i < |h1|
    ensures k + 3 < |rows|
    ensures var bar := h1[i];
            && bar.hour % 60 == 0
            && rows[k].ts == bar.hour && rows[k + 1].ts == bar.hour + 15
            && rows[k + 2].ts == bar.hour + 30 && rows[k + 3].ts == bar.hour + 45
            && bar.open == rows[k].open && bar.close == rows[k + 3].close
            && (forall j :: k <= j < k + 4 ==> bar.low <= rows[j].low && rows[j].high <= bar.high)
            && (exists j :: k <= j < k + 4 && rows[j].high == bar.high)
            && (exists j :: k <= j < k + 4 && rows[j].low == bar.low)
  {
    var bar := h1[i];
    assert Built(rows, bar);
    var lo, hi := BucketSlice(rows, bar.hour);
    k := lo;
    var bars := Bucket(rows, bar.hour);
    assert bars == rows[k..k + 4] && HourOf(rows[k].ts) == bar.hour;
    hide MaxHigh;
    hide MinLow;
    hide Bucket;
    hide Increasing;
    forall j | k <= j < k + 4 ensures bar.low <= rows[j].low && rows[j].high <= bar.high {
      var a, b := BarSpans(bars, j - k);
      assert bars[j - k] == rows[j];
    }
    var a, b := BarSpans(bars, 0);
    assert bars[a] == rows[k + a] && bars[b] == rows[k + b];
  }

  /** Every four consecutive quarter-hours that are alone in their hour make a bar. */
  lemma EveryFullHourListed(rows: seq<HourBars.Row>, h1: seq<Bar>, k: nat)
    requires Increasing(rows) && IsAggregation(rows, h1) && k + 3 < |rows| && rows[k].ts % 60 == 0
    requires rows[k + 1].ts == rows[k].ts + 15 && rows[k + 2].ts == rows[k].ts + 30 && rows[k + 3].ts == rows[k].ts + 45
    requires k + 4 < |rows| ==> rows[k + 4].ts >= rows[k].ts + 60
    ensures exists i :: 0 <= i < |h1| && h1[i].hour == rows[k].ts
  {
    var hour := rows[k].ts;
    var lo, hi := BucketSlice(rows, hour);
    AloneInHour(rows, k);
    SliceIs(rows, hour, lo, hi, k);
    FourComplete(rows, hour, k);
    assert Listed(h1, hour);
    hide CompleteHour;
  }

  /** Exactly the four rows from k on lie in the hour of row k. */
  lemma AloneInHour(rows: seq<HourBars.Row>, k: nat)
    requires Increasing(rows) && k + 3 < |rows| && rows[k].ts % 60 == 0 && rows[k + 3].ts == rows[k].ts + 45
    requires k + 4 < |rows| ==> rows[k + 4].ts >= rows[k].ts + 60
    ensures forall j :: 0 <= j < |rows| ==> (HourOf(rows[j].ts) == rows[k].ts <==> k <= j < k + 4)
  {
    forall j | 0 <= j < |rows| ensures HourOf(rows[j].ts) == rows[k].ts <==> k <= j < k + 4 {
      if j < k {
        assert rows[j].ts < rows[k].ts;
      } else if j >= k + 4 {
        assert rows[k + 4].ts <= rows[j].ts;
      } else {
        assert rows[k].ts <= rows[j].ts <= rows[k + 3].ts;
        WithinHour(rows[j].ts, rows[k].ts);
      }
    }
  }

  lemma WithinHour(ts: int, hour: int)
    requires hour % 60 == 0 && hour <= ts < hour + 60
    ensures HourOf(ts) == hour
  {
  }

  lemma SliceIs(rows: seq<HourBars.Row>, hour: int, lo: nat, hi: nat, k: nat)
    requires Slice(rows, hour, lo, hi) && k + 3 < |rows|
    requires forall j :: 0 <= j < |rows| ==> (HourOf(rows[j].ts) == hour <==> k <= j < k + 4)
    ensures lo == k && hi == k + 4
  {
    hide Slice;
    SameSide(rows, hour, lo, hi, k, k);
    SameSide(rows, hour, lo, hi, k, k + 3);
    if lo < |rows| {
      SameSide(rows, hour, lo, hi, k, lo);
    }
    if k + 4 < |rows| {
      SameSide(rows, hour, lo, hi, k, k + 4);
    }
  }

  lemma SameSide(rows: seq<HourBars.Row>, hour: int, lo: nat, hi: nat, k: nat, j: nat)
    requires Slice(rows, hour, lo, hi) && k + 3 < |rows| && j < |rows|
    requires forall j :: 0 <= j < |rows| ==> (HourOf(rows[j].ts) == hour <==> k <= j < k + 4)
    ensures lo <= j < hi <==> k <= j < k + 4
    ensures lo <= hi <= |rows|
  {
    hide HourOf;
    assert HourOf(rows[j].ts) == hour <==> k <= j < k + 4;
  }

  lemma FourComplete(rows: seq<HourBars.Row>, hour: int, k: nat)
    requires k + 3 < |rows| && Bucket(rows, hour) == rows[k..k + 4] && rows[k].ts == hour
    requires rows[k + 1].ts == hour + 15 && rows[k + 2].ts == hour + 30 && rows[k + 3].ts == hour + 45
    ensures CompleteHour(rows, hour)
  {
    hide Bucket;
  }

  // ---------------------------------------------------------------- signals and their cells

  /** The impulse at row j, from the unbroken rows that end there. */
  ghost function ImpulseAt(w: World, j: nat): Option<Impulse>
    requires j < |w.rows|
  {
    w.probe(w.rows[StretchStart(w.rows, j)..j + 1])
  }

  /** The hourly bar in use at row j. */
  ghost function BarAt(w: World, j: nat): Option<Bar>
    requires j < |w.rows|
  {
    Context(w.h1, w.rows[j].ts)
  }

  /** Row j lies in the analysis dates, shows an impulse and has an hourly bar. */
  ghost predicate Qualifies(w: World, j: nat) {
    && j < |w.rows| && w.start <= w.rows[j].ts < w.end && ImpulseAt(w, j).Some? && BarAt(w, j).Some?
  }

  /** The rows up to the horizon follow every quarter of an hour. */
  ghost predicate Whole(rows: seq<HourBars.Row>, horizon: nat, j: nat) {
    j + horizon < |rows| && forall k :: j < k <= j + horizon ==> rows[k].ts - rows[k - 1].ts == 15
  }

  /** The move in the direction of the impulse against its threshold. */
  ghost predicate Meets(p: Impulse, from: real, to: real, o: Outcome) {
    var d := if p.up then 1.0 else -1.0;
    match o
    case Continuation => d * (to - from) > p.threshold
    case Reversal => d * (to - from) < -p.threshold && d * (to - from) <= p.threshold
    case Sideways => -p.threshold <= d * (to - from) <= p.threshold
  }

  /** The direction of the hour against that of the impulse. */
  ghost predicate Aligns(p: Impulse, bar: Bar, a: Alignment) {
    var d := if p.up then 1 else -1;
    var hour := if bar.close > bar.open then 1 else if bar.close < bar.open then -1 else 0;
    match a
    case Aligned => hour == d
    case Opposed => hour == -d
    case Flat => hour == 0
  }

  /** Row j belongs to a cell of the group table or of the day table. */
  ghost predicate InCell(w: World, horizon: nat, key: Key, o: Outcome, j: nat) {
    && Qualifies(w, j) && Whole(w.rows, horizon, j)
    && var p, bar, ts := ImpulseAt(w, j).value, BarAt(w, j).value, w.rows[j].ts;
       && (key.holdout <==> w.holdout <= ts)
       && Meets(p, w.rows[j].close, w.rows[j + horizon].close, o)
       && match key
          case GroupKey(_, g) => g.up == p.up && g.wick == p.wick && Aligns(p, bar, g.alignment)
          case DayKey(_, day) => 1440 * day <= ts < 1440 * (day + 1)
  }

  ghost function Cell(w: World, horizon: nat, key: Key, o: Outcome, m: nat): (s: set<nat>)
    ensures forall j: nat :: j in s <==> j < m && InCell(w, horizon, key, o, j)
  {
    set j: nat | j < m && InCell(w, horizon, key, o, j)
  }

  ghost function Qualifying(w: World, m: nat): (s: set<nat>)
    ensures forall j: nat :: j in s <==> j < m && Qualifies(w, j)
  {
    set j: nat | j < m && Qualifies(w, j)
  }

  ghost function Resolving(w: World, horizon: nat, m: nat): (s: set<nat>)
    ensures forall j: nat :: j in s <==> j < m && Qualifies(w, j) && Whole(w.rows, horizon, j)
  {
    set j: nat | j < m && Qualifies(w, j) && Whole(w.rows, horizon, j)
  }

  lemma EventIff(w: World, horizon: nat, j: nat)
    requires j < |w.rows|
    ensures EventAt(w, horizon, j).Some? <==> Qualifies(w, j)
    ensures Qualifies(w, j) ==>
              var e, p, bar := EventAt(w, horizon, j).value, ImpulseAt(w, j).value, BarAt(w, j).value;
              && e.ts == w.rows[j].ts && e.up == p.up && e.close == w.rows[j].close && e.threshold == p.threshold
              && e.group.up == p.up && e.group.wick == p.wick
              && forall a :: Aligns(p, bar, a) <==> a == e.group.alignment
  {
    hide StretchStart;
    hide Context;
  }

  lemma WholeIsUnbroken(rows: seq<HourBars.Row>, horizon: nat, j: nat)
    requires j < |rows|
    ensures Whole(rows, horizon, j) <==> Unbroken(rows, horizon, j)
  {
    if Unbroken(rows, horizon, j) {
      forall k | j < k <= j + horizon ensures rows[k].ts - rows[k - 1].ts == 15 {
        assert Joined(rows, k);
      }
    }
  }

  lemma OutcomeIff(p: Impulse, e: Event, from: real, to: real, o: Outcome)
    requires e.up == p.up && e.close == from && e.threshold == p.threshold
    ensures Meets(p, from, to, o) <==> OutcomeOf(e, to) == o
  {
  }

  lemma DayIff(ts: int, day: int)
    ensures 1440 * day <= ts < 1440 * (day + 1) <==> ts / 1440 == day
  {
  }

  /** One label and the cells it counts in. */
  lemma LabelCell(w: World, horizon: nat, key: Key, o: Outcome, j: nat)
    requires j < |w.rows|
    ensures NewLabel(w, horizon, j) != [] <==> Qualifies(w, j) && Whole(w.rows, horizon, j)
    ensures NewLabel(w, horizon, j) != [] ==> |NewLabel(w, horizon, j)| == 1
    ensures InCell(w, horizon, key, o, j) <==>
              && NewLabel(w, horizon, j) != []
              && var l := NewLabel(w, horizon, j)[0];
                 (key == GroupKeyOf(l) || key == DayKeyOf(l)) && l.outcome == o
  {
    EventIff(w, horizon, j);
    WholeIsUnbroken(w.rows, horizon, j);
    if Qualifies(w, j) && Whole(w.rows, horizon, j) {
      var e, p, bar := EventAt(w, horizon, j).value, ImpulseAt(w, j).value, BarAt(w, j).value;
      OutcomeIff(p, e, w.rows[j].close, w.rows[j + horizon].close, o);
      if key.DayKey? {
        DayIff(w.rows[j].ts, key.day);
      }
      hide EventAt;
      hide ImpulseAt;
      hide BarAt;
      hide Whole;
      hide Unbroken;
      hide OutcomeOf;
      hide Meets;
      hide Aligns;
    }
  }

  lemma OneCell(w: World, horizon: nat, key: Key, o: Outcome, m: nat)
    ensures m !in Cell(w, horizon, key, o, m)
    ensures InCell(w, horizon, key, o, m) ==>
              Cell(w, horizon, key, o, m + 1) == Cell(w, horizon, key, o, m) + {m}
    ensures !InCell(w, horizon, key, o, m) ==> Cell(w, horizon, key, o, m + 1) == Cell(w, horizon, key, o, m)
  {
    hide InCell;
  }

  lemma OneCounted(labels: seq<Label>, l: Label, key: Key, o: Outcome)
    ensures CountKeyed(labels + [l], key, o)
            == CountKeyed(labels, key, o)
               + if (key == GroupKeyOf(l) || key == DayKeyOf(l)) && o == l.outcome then 1 else 0
  {
    assert (labels + [l])[..|labels|] == labels;
  }

  lemma {:induction false} CountIsCell(w: World, horizon: nat, key: Key, o: Outcome, m: nat)
    requires m <= |w.rows|
    ensures CountKeyed(Labels(w, horizon, m), key, o) == |Cell(w, horizon, key, o, m)|
  {
    hide InCell;
    hide NewLabel;
    hide Cell;
    hide CountKeyed;
    if m == 0 {
      NoCell(w, horizon, key, o);
    } else {
      CountIsCell(w, horizon, key, o, m - 1);
      LabelCell(w, horizon, key, o, m - 1);
      OneCell(w, horizon, key, o, m - 1);
      var more, before := NewLabel(w, horizon, m - 1), Labels(w, horizon, m - 1);
      if more != [] {
        assert before + more == before + [more[0]];
        OneCounted(before, more[0], key, o);
      } else {
        assert before + more == before;
      }
    }
  }

  lemma NoCell(w: World, horizon: nat, key: Key, o: Outcome)
    ensures CountKeyed(Labels(w, horizon, 0), key, o) == 0 && Cell(w, horizon, key, o, 0) == {}
  {
    hide InCell;
  }

  lemma OneMore(w: World, horizon: nat, j: nat)
    requires j < |w.rows|
    ensures EventAt(w, horizon, j).Some? <==> Qualifies(w, j)
    ensures |NewLabel(w, horizon, j)| == if Qualifies(w, j) && Whole(w.rows, horizon, j) then 1 else 0
  {
    hide InCell;
    hide Qualifies;
    hide Whole;
    hide EventAt;
    EventIff(w, horizon, j);
    WholeIsUnbroken(w.rows, horizon, j);
  }

  lemma OneQualifying(w: World, horizon: nat, m: nat)
    ensures |Qualifying(w, m + 1)| == |Qualifying(w, m)| + if Qualifies(w, m) then 1 else 0
    ensures |Resolving(w, horizon, m + 1)|
         == |Resolving(w, horizon, m)| + if Qualifies(w, m) && Whole(w.rows, horizon, m) then 1 else 0
  {
    hide Qualifies;
    hide Whole;
    SizeGrows(Qualifying(w, m), Qualifying(w, m + 1), m, Qualifies(w, m));
    SizeGrows(Resolving(w, horizon, m), Resolving(w, horizon, m + 1), m, Qualifies(w, m) && Whole(w.rows, horizon, m));
  }

  lemma {:induction false} CountsAreSets(w: World, horizon: nat, m: nat)
    requires m <= |w.rows|
    ensures Signals(w, horizon, m) == |Qualifying(w, m)|
    ensures |Labels(w, horizon, m)| == |Resolving(w, horizon, m)|
  {
    hide Qualifies;
    hide NewLabel;
    hide Whole;
    hide EventAt;
    hide Qualifying;
    hide Resolving;
    if m == 0 {
      NoneQualifying(w, horizon);
    } else {
      CountsAreSets(w, horizon, m - 1);
      OneMore(w, horizon, m - 1);
      OneQualifying(w, horizon, m - 1);
    }
  }

  lemma NoneQualifying(w: World, horizon: nat)
    ensures Qualifying(w, 0) == {} && Resolving(w, horizon, 0) == {}
  {
    hide Qualifies;
    hide Whole;
  }

  // ---------------------------------------------------------------- reading the tables

  ghost predicate DistinctKeys(t: Table) {
    forall i, j :: 0 <= i < j < |t| ==> t[i].0 != t[j].0
  }

  lemma {:induction false} BumpKeys(t: Table, key: Key, o: Outcome)
    requires DistinctKeys(t)
    ensures DistinctKeys(Bump(t, key, o))
    ensures forall i :: 0 <= i < |Bump(t, key, o)| ==>
              Bump(t, key, o)[i].0 == key || exists j :: 0 <= j < |t| && t[j].0 == Bump(t, key, o)[i].0
  {
    if t != [] && t[0].0 != key {
      BumpKeys(t[1..], key, o);
      var rest, r := Bump(t[1..], key, o), Bump(t, key, o);
      assert r == [t[0]] + rest;
      forall i | 0 <= i < |rest|
        ensures rest[i].0 != t[0].0
        ensures rest[i].0 == key || exists j :: 0 <= j < |t| && t[j].0 == rest[i].0
      {
        if rest[i].0 != key {
          var j :| 0 <= j < |t[1..]| && t[1..][j].0 == rest[i].0;
          assert t[j + 1].0 == rest[i].0;
        }
      }
    }
  }

  lemma {:induction false} TablesDistinct(labels: seq<Label>)
    ensures DistinctKeys(Groups(labels)) && DistinctKeys(Days(labels))
  {
    hide Bump;
    if labels != [] {
      var front, l := labels[..|labels| - 1], labels[|labels| - 1];
      TablesDistinct(front);
      BumpKeys(Groups(front), GroupKeyOf(l), l.outcome);
      BumpKeys(Days(front), DayKeyOf(l), l.outcome);
    }
  }

  ghost predicate Present(t: Table, key: Key) {
    exists i :: 0 <= i < |t| && t[i].0 == key
  }

  lemma {:induction false} LookupReads(t: Table, i: nat)
    requires DistinctKeys(t) && i < |t|
    ensures Lookup(t, t[i].0, Continuation) == t[i].1.continuation
    ensures Lookup(t, t[i].0, Reversal) == t[i].1.reversal
    ensures Lookup(t, t[i].0, Sideways) == t[i].1.sideways
  {
    if i > 0 {
      assert t[0].0 != t[i].0;
      assert DistinctKeys(t[1..]) && t[1..][i - 1] == t[i];
      LookupReads(t[1..], i - 1);
    }
  }

  lemma PresentTail(t: Table, key: Key)
    requires t != [] && Present(t[1..], key)
    ensures Present(t, key)
  {
    var i :| 0 <= i < |t[1..]| && t[1..][i].0 == key;
    assert t[i + 1].0 == key;
  }

  lemma {:induction false} LookupAbsent(t: Table, key: Key, o: Outcome)
    requires !Present(t, key)
    ensures Lookup(t, key, o) == 0
  {
    if t != [] {
      assert t[0].0 != key;
      if Present(t[1..], key) {
        PresentTail(t, key);
        assert false;
      }
      LookupAbsent(t[1..], key, o);
    }
  }

  lemma {:induction false} KeyKinds(labels: seq<Label>)
    ensures forall i :: 0 <= i < |Groups(labels)| ==> Groups(labels)[i].0.GroupKey?
    ensures forall i :: 0 <= i < |Days(labels)| ==> Days(labels)[i].0.DayKey?
  {
    hide Bump;
    if labels != [] {
      var front, l := labels[..|labels| - 1], labels[|labels| - 1];
      KeyKinds(front);
      TablesDistinct(front);
      BumpKeys(Groups(front), GroupKeyOf(l), l.outcome);
      BumpKeys(Days(front), DayKeyOf(l), l.outcome);
    }
  }

  /** A table of the whole file: every entry's three counters are the numbers of rows in the three cells of its key,
      no key is listed twice, and a key that is not listed has empty cells. */
  ghost predicate CountsCells(w: World, horizon: nat, t: Table) {
    && DistinctKeys(t)
    && (forall i :: 0 <= i < |t| ==>
          && t[i].1.continuation == |Cell(w, horizon, t[i].0, Continuation, |w.rows|)|
          && t[i].1.reversal == |Cell(w, horizon, t[i].0, Reversal, |w.rows|)|
          && t[i].1.sideways == |Cell(w, horizon, t[i].0, Sideways, |w.rows|)|)
  }

  lemma EntryCounts(w: World, horizon: nat, t: Table, i: nat)
    requires var labels := Labels(w, horizon, |w.rows|); t == Groups(labels) || t == Days(labels)
    requires i < |t|
    ensures t[i].1.continuation == |Cell(w, horizon, t[i].0, Continuation, |w.rows|)|
    ensures t[i].1.reversal == |Cell(w, horizon, t[i].0, Reversal, |w.rows|)|
    ensures t[i].1.sideways == |Cell(w, horizon, t[i].0, Sideways, |w.rows|)|
  {
    hide Labels;
    hide Groups;
    hide Days;
    hide Lookup;
    hide CountKeyed;
    hide Cell;
    var labels := Labels(w, horizon, |w.rows|);
    TablesDistinct(labels);
    KeyKinds(labels);
    LookupReads(t, i);
    EntryCount(w, horizon, t, i, Continuation);
    EntryCount(w, horizon, t, i, Reversal);
    EntryCount(w, horizon, t, i, Sideways);
  }

  lemma EntryCount(w: World, horizon: nat, t: Table, i: nat, o: Outcome)
    requires var labels := Labels(w, horizon, |w.rows|); t == Groups(labels) || t == Days(labels)
    requires i < |t|
    ensures Lookup(t, t[i].0, o) == |Cell(w, horizon, t[i].0, o, |w.rows|)|
  {
    hide Labels;
    hide Lookup;
    hide CountKeyed;
    hide Cell;
    hide Groups;
    hide Days;
    var labels := Labels(w, horizon, |w.rows|);
    KeyKinds(labels);
    TablesCount(labels, t[i].0, o);
    CountIsCell(w, horizon, t[i].0, o, |w.rows|);
  }

  lemma AbsentEmpty(w: World, horizon: nat, key: Key, o: Outcome)
    requires var labels := Labels(w, horizon, |w.rows|);
             !Present(if key.GroupKey? then Groups(labels) else Days(labels), key)
    ensures Cell(w, horizon, key, o, |w.rows|) == {}
  {
    hide Labels;
    hide Groups;
    hide Days;
    hide Lookup;
    hide CountKeyed;
    hide Present;
    var labels := Labels(w, horizon, |w.rows|);
    TablesCount(labels, key, o);
    LookupAbsent(if key.GroupKey? then Groups(labels) else Days(labels), key, o);
    CountIsCell(w, horizon, key, o, |w.rows|);
  }

  /** What a finished book of either horizon holds, on the rows alone. */
  ghost predicate WrittenOut(w: World, horizon: nat, b: Book) {
    && CountsCells(w, horizon, b.groups) && CountsCells(w, horizon, b.days)
    && (forall key: Key, o: Outcome ::
          !Present(if key.GroupKey? then b.groups else b.days, key) ==> Cell(w, horizon, key, o, |w.rows|) == {})
    && b.resolved == |Resolving(w, horizon, |w.rows|)|
    && b.resolved + b.excluded == |Qualifying(w, |w.rows|)|
  }

  /** Every book that reports the labels is the one written out on the rows. */
  lemma ReportWrittenOut(w: World, horizon: nat, b: Book)
    requires Reports(w, horizon, b)
    ensures WrittenOut(w, horizon, b)
  {
    hide Labels;
    hide Signals;
    hide Groups;
    hide Days;
    hide Present;
    hide Cell;
    var labels := Labels(w, horizon, |w.rows|);
    TablesDistinct(labels);
    CountsAreSets(w, horizon, |w.rows|);
    forall i | 0 <= i < |b.groups|
      ensures b.groups[i].1.continuation == |Cell(w, horizon, b.groups[i].0, Continuation, |w.rows|)|
      ensures b.groups[i].1.reversal == |Cell(w, horizon, b.groups[i].0, Reversal, |w.rows|)|
      ensures b.groups[i].1.sideways == |Cell(w, horizon, b.groups[i].0, Sideways, |w.rows|)|
    {
      EntryCounts(w, horizon, b.groups, i);
    }
    forall i | 0 <= i < |b.days|
      ensures b.days[i].1.continuation == |Cell(w, horizon, b.days[i].0, Continuation, |w.rows|)|
      ensures b.days[i].1.reversal == |Cell(w, horizon, b.days[i].0, Reversal, |w.rows|)|
      ensures b.days[i].1.sideways == |Cell(w, horizon, b.days[i].0, Sideways, |w.rows|)|
    {
      EntryCounts(w, horizon, b.days, i);
    }
    forall key: Key, o: Outcome | !Present(if key.GroupKey? then b.groups else b.days, key)
      ensures Cell(w, horizon, key, o, |w.rows|) == {}
    {
      AbsentEmpty(w, horizon, key, o);
    }
  }
}
