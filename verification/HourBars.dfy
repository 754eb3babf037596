/** Hourly context for the M15 audit of scripts/audit_candle_velocity_m15_h1.py: complete hours are built
    from quarter-hour rows, and a cursor picks the last one that has closed. Times are minutes. */
module HourBars {
  import opened Common
  import opened OrderedDict
  import opened Sorting

  datatype Row = Row(ts: int, open: real, high: real, low: real, close: real)
  datatype Bar = Bar(hour: int, open: real, high: real, low: real, close: real)

  ghost predicate Increasing(rows: seq<Row>) {
    forall i, j :: 0 <= i < j < |rows| ==> rows[i].ts < rows[j].ts
  }

  /** The full hour a minute lies in. */
  function HourOf(ts: int): (hour: int)
    ensures hour <= ts < hour + 60 && hour % 60 == 0
  {
    ts - ts % 60
  }

  /** The rows of one hour, in row order. */
  function Bucket(rows: seq<Row>, hour: int): seq<Row> {
    if rows == [] then []
    else
      var last := rows[|rows| - 1];
      Bucket(rows[..|rows| - 1], hour) + if HourOf(last.ts) == hour then [last] else []
  }

  /** Exactly the four quarter-hours. */
  predicate Complete(bars: seq<Row>, hour: int) {
    |bars| == 4 && bars[0].ts == hour && bars[1].ts == hour + 15 && bars[2].ts == hour + 30 && bars[3].ts == hour + 45
  }

  function MaxHigh(bars: seq<Row>): real
    requires bars != []
  {
    if |bars| == 1 then bars[0].high
    else
      var rest := MaxHigh(bars[1..]);
      if bars[0].high > rest then bars[0].high else rest
  }

  function MinLow(bars: seq<Row>): real
    requires bars != []
  {
    if |bars| == 1 then bars[0].low
    else
      var rest := MinLow(bars[1..]);
      if bars[0].low < rest then bars[0].low else rest
  }

  /** The bar spans every row's range, and some rows reach its ends. */
  lemma {:induction false} BarSpans(bars: seq<Row>, k: nat) returns (i: nat, j: nat)
    requires k < |bars|
    ensures MinLow(bars) <= bars[k].low && bars[k].high <= MaxHigh(bars)
    ensures i < |bars| && j < |bars| && bars[i].high == MaxHigh(bars) && bars[j].low == MinLow(bars)
  {
    i, j := 0, 0;
    if |bars| > 1 {
      var rest := bars[1..];
      var h, l := BarSpans(rest, if k == 0 then 0 else k - 1);
      if MaxHigh(rest) >= bars[0].high {
        i := h + 1;
      }
      if MinLow(rest) <= bars[0].low {
        j := l + 1;
      }
    }
  }

  function BarOf(hour: int, bars: seq<Row>): Bar
    requires bars != []
  {
    Bar(hour, bars[0].open, MaxHigh(bars), MinLow(bars), bars[|bars| - 1].close)
  }

  // ---------------------------------------------------------------- aggregation

  ghost predicate CompleteHour(rows: seq<Row>, hour: int) {
    Complete(Bucket(rows, hour), hour)
  }

  ghost predicate Rising(h1: seq<Bar>) {
    forall i, j :: 0 <= i < j < |h1| ==> h1[i].hour < h1[j].hour
  }

  ghost predicate Built(rows: seq<Row>, bar: Bar) {
    CompleteHour(rows, bar.hour) && bar == BarOf(bar.hour, Bucket(rows, bar.hour))
  }

  ghost predicate Listed(h1: seq<Bar>, hour: int) {
    exists i :: 0 <= i < |h1| && h1[i].hour == hour
  }

  /** One bar for every complete hour, in time order, and no other. */
  ghost predicate IsAggregation(rows: seq<Row>, h1: seq<Bar>) {
    && Rising(h1)
    && (forall i :: 0 <= i < |h1| ==> Built(rows, h1[i]))
    && (forall hour :: CompleteHour(rows, hour) ==> Listed(h1, hour))
  }

  function IntLeq(a: int, b: int): bool { a <= b }

  ghost predicate Strict(s: seq<int>) {
    forall i, j :: 0 <= i < j < |s| ==> s[i] < s[j]
  }

  /** Sorting distinct hours puts them in strictly rising order. */
  lemma SortHours(s: seq<int>)
    requires NoRepeats(s)
    ensures Strict(Sort(IntLeq, s))
    ensures forall x :: x in Sort(IntLeq, s) <==> x in s
  {
    var t := Sort(IntLeq, s);
    assert TotalPreorder(IntLeq);
    SortSorts(IntLeq, s);
    SameMembers(s, t);
    forall i, j | 0 <= i < j < |t| ensures t[i] < t[j] {
      assert IntLeq(t[i], t[j]);
      assert t[i] in s;
      var x :| 0 <= x < |s| && s[x] == t[i];
      Once(s, x);
      if t[i] == t[j] {
        Twice(t, i, j);
      }
    }
  }

  ghost predicate Buckets(rows: seq<Row>, buckets: Dict<seq<Row>>) {
    forall hour ::
      if hour in buckets.items then buckets.items[hour] == Bucket(rows, hour) != [] else Bucket(rows, hour) == []
  }

  method FillBuckets(rows: seq<Row>) returns (buckets: Dict<seq<Row>>)
    ensures Buckets(rows, buckets)
  {
    buckets := Empty();
    for i := 0 to |rows|
      invariant Buckets(rows[..i], buckets)
    {
      var hour := HourOf(rows[i].ts);
      var before := buckets;
      assert rows[..i + 1][..i] == rows[..i];
      buckets := SetDefault(buckets, hour, []);
      buckets := Put(buckets, hour, buckets.items[hour] + [rows[i]]);
      assert forall h :: h != hour ==> (h in buckets.items <==> h in before.items);
    }
    assert rows[..|rows|] == rows;
  }

  /** Bars for the first k hours: in time order, none missing. */
  ghost predicate Covers(rows: seq<Row>, hours: seq<int>, k: nat, h1: seq<Bar>)
    requires k <= |hours|
  {
    && Rising(h1)
    && (forall i :: 0 <= i < |h1| ==> Built(rows, h1[i]) && k > 0 && h1[i].hour <= hours[k - 1])
    && (forall j :: 0 <= j < k && CompleteHour(rows, hours[j]) ==> Listed(h1, hours[j]))
  }

  lemma CoversStep(rows: seq<Row>, hours: seq<int>, k: nat, h1: seq<Bar>)
    requires k < |hours| && Strict(hours) && Covers(rows, hours, k, h1)
    ensures !CompleteHour(rows, hours[k]) ==> Covers(rows, hours, k + 1, h1)
    ensures CompleteHour(rows, hours[k]) ==> Covers(rows, hours, k + 1, h1 + [BarOf(hours[k], Bucket(rows, hours[k]))])
  {
    var hour := hours[k];
    assert k > 0 ==> hours[k - 1] < hour;
    if CompleteHour(rows, hour) {
      var bar := BarOf(hour, Bucket(rows, hour));
      assert Built(rows, bar);
      hide Built;
      hide CompleteHour;
      ListedGrows(h1, bar);
    }
  }

  lemma CoversAll(rows: seq<Row>, hours: seq<int>, h1: seq<Bar>)
    requires Covers(rows, hours, |hours|, h1) && forall hour :: CompleteHour(rows, hour) ==> hour in hours
    ensures IsAggregation(rows, h1)
  {
    hide Built;
    hide CompleteHour;
  }

  method AggregateH1(rows: seq<Row>) returns (r: Result<seq<Bar>, string>)
    ensures r.Ok? ==> IsAggregation(rows, r.value)
    ensures r.Err? <==> forall hour :: !CompleteHour(rows, hour)
  {
    hide Bucket;
    hide Covers;
    hide IsAggregation;
    hide Complete;
    var buckets := FillBuckets(rows);
    var hours := Sort(IntLeq, buckets.order);
    SortHours(buckets.order);
    var h1: seq<Bar> := [];
    CoversNothing(rows, hours);
    for k := 0 to |hours|
      invariant Covers(rows, hours, k, h1)
    {
      var hour := hours[k];
      assert hour in hours;
      var bars := buckets.items[hour];
      CoversStep(rows, hours, k, h1);
      if Complete(bars, hour) {
        h1 := h1 + [BarOf(hour, bars)];
      }
    }
    EmptyIncomplete(rows);
    CoversAll(rows, hours, h1);
    EmptyIffNone(rows, h1);
    if h1 == [] {
      return Err("No complete H1 bars can be aggregated from M15 source");
    }
    r := Ok(h1);
  }

  lemma CoversNothing(rows: seq<Row>, hours: seq<int>)
    ensures Covers(rows, hours, 0, [])
  {
  }

  lemma EmptyIncomplete(rows: seq<Row>)
    ensures forall hour :: CompleteHour(rows, hour) ==> Bucket(rows, hour) != []
  {
  }

  lemma EmptyIffNone(rows: seq<Row>, h1: seq<Bar>)
    requires IsAggregation(rows, h1)
    ensures h1 == [] <==> forall hour :: !CompleteHour(rows, hour)
  {
    hide CompleteHour;
    if h1 != [] {
      BuiltIsComplete(rows, h1[0]);
    }
  }

  lemma ListedGrows(h1: seq<Bar>, bar: Bar)
    ensures Listed(h1 + [bar], bar.hour)
    ensures forall hour :: Listed(h1, hour) ==> Listed(h1 + [bar], hour)
  {
    assert (h1 + [bar])[|h1|] == bar;
    forall hour | Listed(h1, hour) ensures Listed(h1 + [bar], hour) {
      var i :| 0 <= i < |h1| && h1[i].hour == hour;
      assert (h1 + [bar])[i].hour == hour;
    }
  }

  // ---------------------------------------------------------------- the bar in use

  /** The bar has closed by the time the row stamped t closes. */
  predicate ClosedBy(bar: Bar, t: int) {
    bar.hour + 60 <= t + 15
  }

  /** How many leading bars have closed. */
  function Closed(h1: seq<Bar>, t: int): (n: nat)
    ensures n <= |h1|
    ensures n > 0 ==> ClosedBy(h1[n - 1], t)
  {
    if h1 == [] || ClosedBy(h1[|h1| - 1], t) then |h1| else Closed(h1[..|h1| - 1], t)
  }

  function Context(h1: seq<Bar>, t: int): Option<Bar> {
    if Closed(h1, t) == 0 then None else Some(h1[Closed(h1, t) - 1])
  }

  lemma {:induction false} ClosedExactly(h1: seq<Bar>, t: int)
    requires Rising(h1)
    ensures forall k :: 0 <= k < |h1| ==> (k < Closed(h1, t) <==> ClosedBy(h1[k], t))
  {
    if h1 != [] && !ClosedBy(h1[|h1| - 1], t) {
      ClosedExactly(h1[..|h1| - 1], t);
    }
  }

  /** The cursor moves forward only, and lands on the last closed bar. */
  method AdvanceCursor(h1: seq<Bar>, cursor: int, t: int) returns (c: int)
    requires Rising(h1) && -1 <= cursor < Closed(h1, t)
    ensures cursor <= c && c == Closed(h1, t) - 1
  {
    ClosedExactly(h1, t);
    c := cursor;
    while c + 1 < |h1| && ClosedBy(h1[c + 1], t)
      invariant cursor <= c < Closed(h1, t)
    {
      c := c + 1;
    }
  }

  lemma ClosedMonotone(h1: seq<Bar>, t: int, u: int)
    requires Rising(h1) && t <= u
    ensures Closed(h1, t) <= Closed(h1, u)
  {
    ClosedExactly(h1, t);
    ClosedExactly(h1, u);
    if Closed(h1, t) > 0 {
      assert ClosedBy(h1[Closed(h1, t) - 1], u);
    }
  }

  /** What the bar in use is, said without the list and the cursor: the latest complete hour that has closed. */
  ghost predicate Usable(rows: seq<Row>, t: int, hour: int) {
    CompleteHour(rows, hour) && hour + 60 <= t + 15
  }

  ghost predicate InUse(rows: seq<Row>, t: int, bar: Option<Bar>) {
    if bar.None? then forall hour :: !Usable(rows, t, hour)
    else
      && Built(rows, bar.value) && Usable(rows, t, bar.value.hour)
      && forall hour :: Usable(rows, t, hour) ==> hour <= bar.value.hour
  }

  lemma ContextInUse(rows: seq<Row>, h1: seq<Bar>, t: int)
    requires IsAggregation(rows, h1)
    ensures InUse(rows, t, Context(h1, t))
  {
    hide Built;
    hide CompleteHour;
    ClosedExactly(h1, t);
    var n := Closed(h1, t);
    forall hour | Usable(rows, t, hour) ensures n > 0 && hour <= h1[n - 1].hour {
      assert Listed(h1, hour);
      var i :| 0 <= i < |h1| && h1[i].hour == hour;
      assert ClosedBy(h1[i], t);
    }
    if n > 0 {
      assert Built(rows, h1[n - 1]);
      BuiltIsComplete(rows, h1[n - 1]);
    }
  }

  lemma BuiltIsComplete(rows: seq<Row>, bar: Bar)
    requires Built(rows, bar)
    ensures CompleteHour(rows, bar.hour)
  {
  }

  // ---------------------------------------------------------------- which rows a bar is made of

  /** Rows lo up to hi are exactly the rows of the hour. */
  ghost predicate Slice(rows: seq<Row>, hour: int, lo: nat, hi: nat) {
    && lo <= hi <= |rows|
    && forall k :: 0 <= k < |rows| ==> (lo <= k < hi <==> HourOf(rows[k].ts) == hour)
  }

  lemma BucketStep(rows: seq<Row>, hour: int)
    requires rows != []
    ensures var n := |rows| - 1;
            Bucket(rows, hour)
            == if HourOf(rows[n].ts) == hour then Bucket(rows[..n], hour) + [rows[n]] else Bucket(rows[..n], hour)
  {
  }

  lemma SliceStep(rows: seq<Row>, hour: int, lo: nat, hi: nat)
    requires rows != [] && Slice(rows[..|rows| - 1], hour, lo, hi)
    ensures HourOf(rows[|rows| - 1].ts) != hour ==> Slice(rows, hour, lo, hi)
    ensures HourOf(rows[|rows| - 1].ts) == hour && hi == |rows| - 1 ==> Slice(rows, hour, lo, |rows|)
    ensures HourOf(rows[|rows| - 1].ts) == hour && lo == hi ==> Slice(rows, hour, |rows| - 1, |rows|)
  {
    hide HourOf;
    var n := |rows| - 1;
    assert forall k :: 0 <= k < n ==> rows[..n][k] == rows[k];
  }

  lemma IncreasingPrefix(rows: seq<Row>, n: nat)
    requires Increasing(rows) && n <= |rows|
    ensures Increasing(rows[..n])
  {
  }

  /** The rows of one hour are a slice of the rows. */
  lemma {:induction false} BucketSlice(rows: seq<Row>, hour: int) returns (lo: nat, hi: nat)
    requires Increasing(rows)
    ensures Slice(rows, hour, lo, hi) && Bucket(rows, hour) == rows[lo..hi]
  {
    hide HourOf;
    if rows == [] {
      lo, hi := 0, 0;
    } else {
      hide Bucket;
      hide Increasing;
      var n := |rows| - 1;
      IncreasingPrefix(rows, n);
      lo, hi := BucketSlice(rows[..n], hour);
      BucketStep(rows, hour);
      SliceStep(rows, hour, lo, hi);
      SliceFits(rows[..n], hour, lo, hi);
      hide Slice;
      SliceOfPrefix(rows, lo, hi, n);
      if HourOf(rows[n].ts) == hour {
        if lo == hi {
          lo, hi := n, n + 1;
        } else {
          BetweenHours(rows, lo, hi, n, hour);
          hi := n + 1;
        }
        SliceEnd(rows, lo, n);
      }
    }
  }

  lemma SliceOfPrefix(rows: seq<Row>, lo: nat, hi: nat, n: nat)
    requires lo <= hi <= n <= |rows|
    ensures rows[..n][lo..hi] == rows[lo..hi]
  {
  }

  lemma SliceEnd(rows: seq<Row>, lo: nat, n: nat)
    requires lo <= n < |rows|
    ensures rows[lo..n] + [rows[n]] == rows[lo..n + 1]
  {
  }

  lemma SliceFits(rows: seq<Row>, hour: int, lo: nat, hi: nat)
    requires Slice(rows, hour, lo, hi)
    ensures lo <= hi <= |rows|
  {
  }

  lemma BetweenHours(rows: seq<Row>, lo: nat, hi: nat, n: nat, hour: int)
    requires Increasing(rows) && lo < hi <= n < |rows|
    requires Slice(rows[..n], hour, lo, hi) && HourOf(rows[n].ts) == hour
    ensures hi == n
  {
    hide HourOf;
    assert forall k :: 0 <= k < n ==> rows[..n][k] == rows[k];
    if hi < n {
      assert rows[lo].ts < rows[hi].ts < rows[n].ts;
      SameHour(rows[lo].ts, rows[hi].ts, rows[n].ts);
    }
  }

  lemma SameHour(a: int, b: int, c: int)
    requires a <= b <= c && HourOf(a) == HourOf(c)
    ensures HourOf(b) == HourOf(a)
  {
  }

  lemma NotAfter(rows: seq<Row>, k: nat, i: nat)
    requires Increasing(rows) && k < |rows| && i < |rows| && rows[k].ts <= rows[i].ts
    ensures k <= i
  {
  }

  /** A complete hour that has closed by row i is four consecutive rows, none after i. */
  lemma ContextUsesPast(rows: seq<Row>, i: nat, bar: Bar) returns (k: nat)
    requires Increasing(rows) && i < |rows| && InUse(rows, rows[i].ts, Some(bar))
    ensures k + 3 <= i && bar == BarOf(bar.hour, rows[k..k + 4])
    ensures rows[k].ts == bar.hour && rows[k + 3].ts == bar.hour + 45
  {
    var lo, hi := BucketSlice(rows, bar.hour);
    k := lo;
    assert Bucket(rows, bar.hour)[3] == rows[lo + 3];
    NotAfter(rows, lo + 3, i);
  }

  // ---------------------------------------------------------------- what later rows can change

  lemma {:induction false} BucketSplit(rows: seq<Row>, m: nat, hour: int)
    requires m <= |rows|
    ensures Bucket(rows, hour) == Bucket(rows[..m], hour) + Bucket(rows[m..], hour)
  {
    if m < |rows| {
      var n := |rows| - 1;
      BucketSplit(rows[..n], m, hour);
      assert rows[..n][..m] == rows[..m] && rows[..n][m..] == rows[m..][..n - m];
      assert rows[m..][n - m] == rows[n];
    } else {
      assert rows[..m] == rows;
    }
  }

  lemma {:induction false} BucketMember(rows: seq<Row>, hour: int)
    ensures forall k :: 0 <= k < |Bucket(rows, hour)| ==>
              Bucket(rows, hour)[k] in rows && HourOf(Bucket(rows, hour)[k].ts) == hour
    ensures forall k :: 0 <= k < |rows| && HourOf(rows[k].ts) == hour ==> Bucket(rows, hour) != []
  {
    if rows != [] {
      var n := |rows| - 1;
      BucketMember(rows[..n], hour);
      assert forall k :: 0 <= k < n ==> rows[..n][k] == rows[k];
    }
  }

  /** The next row falls in the hour of row i. */
  ghost predicate Followed(rows: seq<Row>, i: nat)
    requires i < |rows|
  {
    i + 1 < |rows| && HourOf(rows[i + 1].ts) == HourOf(rows[i].ts)
  }

  lemma InHour(t: int, hour: int, later: int)
    requires HourOf(later) == hour && hour <= t <= later
    ensures HourOf(t) == hour
  {
  }

  /** Rows after i reach an hour that could already have closed only through the row right after i. */
  lemma LaterRows(rows: seq<Row>, i: nat, hour: int)
    requires Increasing(rows) && i < |rows| && hour + 45 <= rows[i].ts
    ensures Bucket(rows[i + 1..], hour) != [] <==> hour == HourOf(rows[i].ts) && Followed(rows, i)
  {
    hide HourOf;
    hide Bucket;
    var later := rows[i + 1..];
    BucketMember(later, hour);
    if Bucket(later, hour) != [] {
      var row := Bucket(later, hour)[0];
      assert row in later;
      var k :| 0 <= k < |later| && later[k] == row;
      assert rows[i + 1 + k] == row;
      assert rows[i].ts < rows[i + 1].ts <= row.ts;
      InHour(rows[i].ts, hour, row.ts);
      InHour(rows[i + 1].ts, hour, row.ts);
    } else if Followed(rows, i) {
      assert later[0] == rows[i + 1];
    }
  }

  /** Up to row i an hour looks complete, and the next row shows it is not. */
  ghost predicate Undone(rows: seq<Row>, i: nat)
    requires i < |rows|
  {
    CompleteHour(rows[..i + 1], HourOf(rows[i].ts)) && Followed(rows, i)
  }

  lemma HourUnchanged(rows: seq<Row>, i: nat, hour: int)
    requires Increasing(rows) && i < |rows| && hour + 45 <= rows[i].ts
    ensures CompleteHour(rows, hour) <==>
              CompleteHour(rows[..i + 1], hour) && !(hour == HourOf(rows[i].ts) && Followed(rows, i))
    ensures CompleteHour(rows, hour) ==> Bucket(rows, hour) == Bucket(rows[..i + 1], hour)
  {
    hide HourOf;
    hide Bucket;
    hide Followed;
    var early, late := Bucket(rows[..i + 1], hour), Bucket(rows[i + 1..], hour);
    BucketSplit(rows, i + 1, hour);
    LaterRows(rows, i, hour);
    if late == [] {
      assert early + late == early;
    } else {
      BucketMember(rows[i + 1..], hour);
      var last := late[|late| - 1];
      assert (early + late)[|early + late| - 1] == last && last in rows[i + 1..];
      assert rows[i].ts < last.ts;
    }
  }

  lemma CompleteIsHour(rows: seq<Row>, hour: int)
    requires CompleteHour(rows, hour)
    ensures HourOf(hour) == hour
  {
    BucketMember(rows, hour);
  }

  /** Hiding the rows after i leaves the bar in use at row i as it was, unless row i completes its hour and
      the next row still belongs to that hour. */
  lemma ContextCausalIff(rows: seq<Row>, i: nat, full: Option<Bar>, prefix: Option<Bar>)
    requires Increasing(rows) && i < |rows|
    requires InUse(rows, rows[i].ts, full) && InUse(rows[..i + 1], rows[i].ts, prefix)
    ensures full == prefix <==> !Undone(rows, i)
  {
    hide HourOf;
    hide Bucket;
    hide Complete;
    hide BarOf;
    var t, early := rows[i].ts, rows[..i + 1];
    forall hour | hour + 60 <= t + 15
      ensures CompleteHour(rows, hour) <==> CompleteHour(early, hour) && !(hour == HourOf(t) && Followed(rows, i))
      ensures CompleteHour(rows, hour) ==> Bucket(rows, hour) == Bucket(early, hour)
    {
      HourUnchanged(rows, i, hour);
    }
    if Undone(rows, i) {
      LastHourUsable(rows, i);
      assert Usable(early, t, HourOf(t));
      CompleteIsHour(early, prefix.value.hour);
      SameHour(HourOf(t), prefix.value.hour, t);
      HourIsHour(t);
      assert prefix.value.hour == HourOf(t);
      assert !Usable(rows, t, HourOf(t));
    } else {
      assert forall hour :: Usable(rows, t, hour) <==> Usable(early, t, hour);
    }
  }

  lemma HourIsHour(t: int)
    ensures HourOf(HourOf(t)) == HourOf(t)
  {
  }

  lemma LastHourUsable(rows: seq<Row>, i: nat)
    requires Increasing(rows) && i < |rows| && CompleteHour(rows[..i + 1], HourOf(rows[i].ts))
    ensures HourOf(rows[i].ts) + 45 <= rows[i].ts
  {
    var early, hour := rows[..i + 1], HourOf(rows[i].ts);
    BucketMember(early, hour);
    var row := Bucket(early, hour)[3];
    assert row in early;
    var k :| 0 <= k < |early| && early[k] == row;
    assert rows[k].ts <= rows[i].ts;
  }

  ghost predicate OnGrid(rows: seq<Row>) {
    forall i :: 0 <= i < |rows| ==> rows[i].ts % 15 == 0
  }

  /** On the quarter-hour grid the exception never occurs. */
  lemma GridNeverUndone(rows: seq<Row>, i: nat)
    requires Increasing(rows) && OnGrid(rows) && i < |rows|
    ensures !Undone(rows, i)
  {
    if Undone(rows, i) {
      LastHourUsable(rows, i);
      assert rows[i].ts < rows[i + 1].ts;
      QuarterStep(rows[i].ts, rows[i + 1].ts);
      assert false;
    }
  }

  lemma QuarterStep(a: int, b: int)
    requires a < b && a % 15 == 0 && b % 15 == 0
    ensures a + 15 <= b
  {
  }

  /** A complete hour is four consecutive rows that start on the hour, and no neighbour belongs to it. */
  lemma CompleteRows(rows: seq<Row>, hour: int) returns (lo: nat)
    requires Increasing(rows) && CompleteHour(rows, hour)
    ensures lo + 4 <= |rows| && Bucket(rows, hour) == rows[lo..lo + 4] && HourOf(rows[lo].ts) == rows[lo].ts == hour
    ensures lo + 4 < |rows| ==> HourOf(rows[lo + 4].ts) != hour
    ensures rows[lo + 1].ts == hour + 15 && rows[lo + 2].ts == hour + 30 && rows[lo + 3].ts == hour + 45
  {
    hide HourOf;
    hide Bucket;
    var hi: nat;
    lo, hi := BucketSlice(rows, hour);
    var bars := Bucket(rows, hour);
    assert bars[0] == rows[lo] && bars[1] == rows[lo + 1] && bars[2] == rows[lo + 2] && bars[3] == rows[lo + 3];
  }

  /** Off the grid it does: after a first complete hour, a fifth row at minute 50 of the second hour takes away
      the bar that row 7 would have used, and row 7 falls back on the first hour. */
  lemma LateRowRemovesBar(rows: seq<Row>)
    requires |rows| == 9 && rows[0].ts == -60 && rows[1].ts == -45 && rows[2].ts == -30 && rows[3].ts == -15
    requires rows[4].ts == 0 && rows[5].ts == 15 && rows[6].ts == 30 && rows[7].ts == 45 && rows[8].ts == 50
    ensures Increasing(rows) && Undone(rows, 7)
    ensures InUse(rows, 45, Some(BarOf(-60, rows[..4])))
    ensures InUse(rows[..8], 45, Some(BarOf(0, rows[4..8])))
  {
    assert rows[..7 + 1] == rows[..8];
    TwoHours(rows);
    forall hour | CompleteHour(rows, hour) ensures hour == -60 {
      var lo := CompleteRows(rows, hour);
    }
    forall hour | CompleteHour(rows[..8], hour) ensures hour <= 0 {
      var lo := CompleteRows(rows[..8], hour);
    }
  }

  lemma TwoHours(rows: seq<Row>)
    requires |rows| == 9 && rows[0].ts == -60 && rows[1].ts == -45 && rows[2].ts == -30 && rows[3].ts == -15
    requires rows[4].ts == 0 && rows[5].ts == 15 && rows[6].ts == 30 && rows[7].ts == 45 && rows[8].ts == 50
    ensures Bucket(rows, -60) == rows[..4] && Bucket(rows[..8], 0) == rows[4..8]
  {
    var early := rows[..8];
    BucketSplit(rows, 4, -60);
    BucketAll(rows[..4], -60);
    BucketNone(rows[4..], -60);
    BucketSplit(early, 4, 0);
    assert early[..4] == rows[..4] && early[4..] == rows[4..8];
    BucketNone(early[..4], 0);
    BucketAll(early[4..], 0);
  }

  lemma {:induction false} BucketNone(rows: seq<Row>, hour: int)
    requires forall k :: 0 <= k < |rows| ==> HourOf(rows[k].ts) != hour
    ensures Bucket(rows, hour) == []
  {
    if rows != [] {
      BucketNone(rows[..|rows| - 1], hour);
    }
  }

  lemma {:induction false} BucketAll(rows: seq<Row>, hour: int)
    requires forall k :: 0 <= k < |rows| ==> HourOf(rows[k].ts) == hour
    ensures Bucket(rows, hour) == rows
  {
    if rows != [] {
      BucketAll(rows[..|rows| - 1], hour);
    }
  }
}
