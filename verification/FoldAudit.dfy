/** The source-to-result auditor of scripts/audit_xauusd_m1_source_to_result.py. */
module FoldAudit {
  import opened Common
  import opened Sorting

  /** Event identifiers and times are ranks; an identifier is a non-empty string in the artifacts. */
  type EventId = int
  type Time = int

  datatype Row = Row(id: EventId, timestamp: Time, realizedEnd: Time, bullish: bool, hit: bool)

  datatype LabelField = NoLabel | NotBoolean | Boolean(hit: bool)
  datatype DirectionField = BadDirection | Direction(bullish: bool)

  /** One entry of `events_data`. */
  datatype Event = Event(id: Option<EventId>, timestamp: Option<Time>, endpoint: Option<Time>,
                         hitLabel: LabelField, direction: DirectionField)

  // ---------------------------------------------------------------- reading the source

  predicate Incomplete(e: Event) {
    e.endpoint.None? || e.hitLabel.NoLabel?
  }

  /** A complete event without defect, apart from a repeated identifier. */
  predicate WellFormed(e: Event) {
    && e.id.Some? && e.hitLabel.Boolean? && e.direction.Direction? && e.timestamp.Some? && e.endpoint.Some?
    && e.timestamp.value < e.endpoint.value
  }

  function ToRow(e: Event): Row
    requires WellFormed(e)
  {
    Row(e.id.value, e.timestamp.value, e.endpoint.value, e.direction.bullish, e.hitLabel.hit)
  }

  /** The rows in source order, or nothing if some complete event is defective or repeated. */
  function Collected(events: seq<Event>): Option<seq<Row>> {
    if events == [] then Some([])
    else
      var n := |events| - 1;
      var rest := Collected(events[..n]);
      if rest.None? || Incomplete(events[n]) then rest
      else if !WellFormed(events[n]) || exists r | r in rest.value :: r.id == events[n].id.value then None
      else Some(rest.value + [ToRow(events[n])])
  }

  predicate RowLeq(a: Row, b: Row) {
    a.timestamp < b.timestamp || (a.timestamp == b.timestamp && a.id <= b.id)
  }

  function SourceRows(events: seq<Event>): Option<seq<Row>> {
    match Collected(events)
    case None => None
    case Some(rows) => Some(Sort(RowLeq, rows))
  }

  method ReadRows(events: seq<Event>) returns (r: Option<seq<Row>>)
    ensures r == SourceRows(events)
  {
    hide Sort;
    var rows: seq<Row> := [];
    var seen: set<EventId> := {};
    for i := 0 to |events|
      invariant Collected(events[..i]) == Some(rows)
      invariant seen == set row | row in rows :: row.id
    {
      assert events[..i + 1][..i] == events[..i];
      var e := events[i];
      if !Incomplete(e) {
        if !WellFormed(e) {
          CollectedStuck(events, i + 1);
          return None;
        }
        if e.id.value in seen {
          CollectedStuck(events, i + 1);
          return None;
        }
        seen := seen + {e.id.value};
        rows := rows + [ToRow(e)];
      }
    }
    assert events[..|events|] == events;
    r := Some(Sort(RowLeq, rows));
  }

  lemma {:induction false} CollectedStuck(events: seq<Event>, i: nat)
    requires i <= |events| && Collected(events[..i]).None?
    ensures Collected(events).None?
    decreases |events| - i
  {
    if i < |events| {
      assert events[..i + 1][..i] == events[..i];
      CollectedStuck(events, i + 1);
    } else {
      assert events[..i] == events;
    }
  }

  /** What the folds rely on: time order, distinct identifiers, endpoints after their events. */
  ghost predicate GoodRows(rows: seq<Row>) {
    && (forall i, j :: 0 <= i < j < |rows| ==> rows[i].timestamp <= rows[j].timestamp)
    && (forall i, j :: 0 <= i < j < |rows| ==> rows[i].id != rows[j].id)
    && (forall i :: 0 <= i < |rows| ==> rows[i].timestamp < rows[i].realizedEnd)
  }

  lemma {:induction false} CollectedGood(events: seq<Event>)
    requires Collected(events).Some?
    ensures var rows := Collected(events).value;
            && (forall i, j :: 0 <= i < j < |rows| ==> rows[i].id != rows[j].id)
            && (forall i :: 0 <= i < |rows| ==> rows[i].timestamp < rows[i].realizedEnd)
  {
    if events != [] {
      CollectedGood(events[..|events| - 1]);
    }
  }

  lemma DistinctIdsPermute(a: seq<Row>, b: seq<Row>)
    requires multiset(a) == multiset(b)
    requires forall i, j :: 0 <= i < j < |a| ==> a[i].id != a[j].id
    ensures forall i, j :: 0 <= i < j < |b| ==> b[i].id != b[j].id
  {
    forall i, j | 0 <= i < j < |b| ensures b[i].id != b[j].id {
      if b[i].id == b[j].id {
        SameMembers(a, b);
        assert b[i] in b && b[j] in b;
        assert b[i] in a && b[j] in a;
        var x :| 0 <= x < |a| && a[x] == b[i];
        var y :| 0 <= y < |a| && a[y] == b[j];
        assert x == y;
        Twice(b, i, j);
        Once(a, x);
        assert false;
      }
    }
  }

  /** Whatever the source holds, rows that were read are good rows. */
  lemma ReadRowsGood(events: seq<Event>)
    requires SourceRows(events).Some?
    ensures GoodRows(SourceRows(events).value)
  {
    hide Sort;
    var rows := Collected(events).value;
    var sorted := Sort(RowLeq, rows);
    CollectedGood(events);
    assert TotalPreorder(RowLeq);
    SortSorts(RowLeq, rows);
    DistinctIdsPermute(rows, sorted);
    SameMembers(rows, sorted);
    forall i | 0 <= i < |sorted| ensures sorted[i].timestamp < sorted[i].realizedEnd {
      assert sorted[i] in rows;
    }
    forall i, j | 0 <= i < j < |sorted| ensures sorted[i].timestamp <= sorted[j].timestamp {
      assert RowLeq(sorted[i], sorted[j]);
    }
  }

  // ---------------------------------------------------------------- reconstructing the folds

  datatype Split = Split(train: int, validation: int, step: int) {
    predicate Positive() { train > 0 && validation > 0 && step > 0 }
  }

  predicate Fits(n: nat, split: Split, start: nat) {
    start + split.train + split.validation <= n
  }

  function Validation(rows: seq<Row>, split: Split, start: nat): seq<Row>
    requires split.Positive() && Fits(|rows|, split, start)
  {
    rows[start + split.train..start + split.train + split.validation]
  }

  /** Rows whose outcome was realised strictly before `t`. */
  function RealizedBefore(pool: seq<Row>, t: Time): seq<Row> {
    if pool == [] then []
    else
      var rest := RealizedBefore(pool[..|pool| - 1], t);
      if pool[|pool| - 1].realizedEnd < t then rest + [pool[|pool| - 1]] else rest
  }

  function Training(rows: seq<Row>, split: Split, start: nat): seq<Row>
    requires split.Positive() && Fits(|rows|, split, start)
  {
    RealizedBefore(rows[..start + split.train], rows[start + split.train].timestamp)
  }

  /** The starts of the reconstructed folds: up to the end of the rows, or to the first fold without
      any training row. */
  function Starts(rows: seq<Row>, split: Split, start: nat): seq<nat>
    requires split.Positive()
    decreases |rows| - start
  {
    if Fits(|rows|, split, start) && Training(rows, split, start) != []
    then [start] + Starts(rows, split, start + split.step)
    else []
  }

  predicate Starved(rows: seq<Row>, split: Split, start: nat)
    requires split.Positive()
    decreases |rows| - start
  {
    Fits(|rows|, split, start)
    && (Training(rows, split, start) == [] || Starved(rows, split, start + split.step))
  }

  lemma {:induction false} StartsShape(rows: seq<Row>, split: Split, start: nat)
    requires split.Positive()
    ensures forall i :: 0 <= i < |Starts(rows, split, start)| ==>
              && start <= Starts(rows, split, start)[i]
              && Fits(|rows|, split, Starts(rows, split, start)[i])
              && Training(rows, split, Starts(rows, split, start)[i]) != []
    ensures forall i, j :: 0 <= i < j < |Starts(rows, split, start)| ==>
              Starts(rows, split, start)[i] + split.step <= Starts(rows, split, start)[j]
    decreases |rows| - start
  {
    hide Training;
    if Fits(|rows|, split, start) && Training(rows, split, start) != [] {
      StartsShape(rows, split, start + split.step);
    }
  }

  lemma {:induction false} RealizedBeforeMeans(pool: seq<Row>, t: Time, r: Row)
    ensures r in RealizedBefore(pool, t) <==> r in pool && r.realizedEnd < t
  {
    if pool != [] {
      var n := |pool| - 1;
      RealizedBeforeMeans(pool[..n], t, r);
      assert pool == pool[..n] + [pool[n]];
    }
  }

  /** A fold of the reconstruction; `pool` counts the rows before its window. */
  datatype Expected = Expected(training: seq<Row>, validation: seq<Row>, pool: nat)

  function ExpectedAt(rows: seq<Row>, split: Split, start: nat): Expected
    requires split.Positive() && Fits(|rows|, split, start)
  {
    Expected(Training(rows, split, start), Validation(rows, split, start), start + split.train)
  }

  /** The folds whose windows start at `start` or later. */
  function FoldsFrom(rows: seq<Row>, split: Split, start: nat): (e: seq<Expected>)
    requires split.Positive()
    ensures |e| == |Starts(rows, split, start)|
    ensures forall i :: 0 <= i < |e| ==> e[i].training != [] && e[i].validation != []
  {
    StartsShape(rows, split, start);
    var starts := Starts(rows, split, start);
    seq(|starts|, i requires 0 <= i < |starts| => ExpectedAt(rows, split, starts[i]))
  }

  function ExpectedFolds(rows: seq<Row>, split: Split): (e: seq<Expected>)
    requires split.Positive()
    ensures |e| == |Starts(rows, split, 0)|
    ensures forall i :: 0 <= i < |e| ==> e[i].training != [] && e[i].validation != []
  {
    FoldsFrom(rows, split, 0)
  }

  // ---------------------------------------------------------------- the fold loop, for sizes of any sign

  /** An index into n rows as Python's slices read it: from the end if negative, cut off at both ends. */
  function SliceIndex(i: int, n: nat): (k: nat)
    ensures k <= n
  {
    var j := if i < 0 then i + n else i;
    if j < 0 then 0 else if j > n then n else j
  }

  /** `rows[lo:hi]` */
  function Slice(rows: seq<Row>, lo: int, hi: int): seq<Row> {
    var a, b := SliceIndex(lo, |rows|), SliceIndex(hi, |rows|);
    if a <= b then rows[a..b] else []
  }

  /** What one round of the loop meets: its condition fails, the window is empty so that reading its first row
      raises, no row of the pool is realised before the window, or a fold. */
  datatype Visit = Leaves | EmptyWindow | NoTraining | Window(fold: Expected)

  function VisitAt(rows: seq<Row>, split: Split, start: int): Visit {
    if |rows| < start + split.train + split.validation || split.train <= 0 then Leaves
    else
      var validation := Slice(rows, start + split.train, start + split.train + split.validation);
      if validation == [] then EmptyWindow
      else
        var pool := Slice(rows, 0, start + split.train);
        var training := RealizedBefore(pool, validation[0].timestamp);
        if training == [] then NoTraining else Window(Expected(training, validation, |pool|))
  }

  datatype Outcome = Folds(found: seq<Expected>, starved: bool) | IndexError | Forever

  /** How far the loop can still go from `start`. */
  function RoundsLeft(n: nat, split: Split, start: int): nat {
    var d := if split.step > 0 then n + 1 - (start + split.train + split.validation) else start + split.train + n;
    if d < 0 then 0 else d
  }

  lemma RoundsShrink(rows: seq<Row>, split: Split, start: int)
    requires split.step != 0 && VisitAt(rows, split, start).Window?
    ensures RoundsLeft(|rows|, split, start + split.step) < RoundsLeft(|rows|, split, start)
  {
  }

  /** The loop from a window start. With a step of 0 a round that finds a fold repeats for ever. */
  function Walk(rows: seq<Row>, split: Split, start: int): Outcome
    decreases RoundsLeft(|rows|, split, start)
  {
    match VisitAt(rows, split, start)
    case Leaves => Folds([], false)
    case EmptyWindow => IndexError
    case NoTraining => Folds([], true)
    case Window(fold) =>
      if split.step == 0 then Forever
      else
        RoundsShrink(rows, split, start);
        After([fold], Walk(rows, split, start + split.step))
  }

  /** The outcome of a loop that found some folds before. */
  function After(found: seq<Expected>, rest: Outcome): Outcome {
    if rest.Folds? then Folds(found + rest.found, rest.starved) else rest
  }

  method Reconstruct(rows: seq<Row>, split: Split) returns (r: Outcome)
    ensures r == Walk(rows, split, 0)
  {
    hide RealizedBefore;
    hide Slice;
    hide RoundsLeft;
    var found: seq<Expected> := [];
    var start := 0;
    AfterNothing(Walk(rows, split, 0));
    while start + split.train + split.validation <= |rows| && split.train > 0
      invariant After(found, Walk(rows, split, start)) == Walk(rows, split, 0)
      decreases RoundsLeft(|rows|, split, start)
    {
      var validation := Slice(rows, start + split.train, start + split.train + split.validation);
      if validation == [] {
        return IndexError;
      }
      var pool := Slice(rows, 0, start + split.train);
      var training := RealizedBefore(pool, validation[0].timestamp);
      if training == [] {
        AfterEnd(found, true);
        return Folds(found, true);
      }
      if split.step == 0 {
        return Forever;
      }
      RoundsShrink(rows, split, start);
      AfterTwice(found, Expected(training, validation, |pool|), Walk(rows, split, start + split.step));
      found := found + [Expected(training, validation, |pool|)];
      start := start + split.step;
    }
    AfterEnd(found, false);
    r := Folds(found, false);
  }

  lemma AfterNothing(rest: Outcome)
    ensures After([], rest) == rest
  {
  }

  lemma AfterEnd(found: seq<Expected>, starved: bool)
    ensures After(found, Folds([], starved)) == Folds(found, starved)
  {
  }

  lemma AfterTwice(found: seq<Expected>, fold: Expected, rest: Outcome)
    ensures After(found + [fold], rest) == After(found, After([fold], rest))
  {
    if rest.Folds? {
      assert found + [fold] + rest.found == found + ([fold] + rest.found);
    }
  }

  lemma VisitFilled(rows: seq<Row>, split: Split, start: int)
    requires VisitAt(rows, split, start).Window?
    ensures VisitAt(rows, split, start).fold.training != [] && VisitAt(rows, split, start).fold.validation != []
  {
    hide RealizedBefore;
    hide Slice;
  }

  /** Every fold found has training and validation rows, whatever the sizes. */
  lemma {:induction false} WalkFoldsFilled(rows: seq<Row>, split: Split, start: int)
    requires Walk(rows, split, start).Folds?
    ensures forall i :: 0 <= i < |Walk(rows, split, start).found| ==>
              Walk(rows, split, start).found[i].training != [] && Walk(rows, split, start).found[i].validation != []
    decreases RoundsLeft(|rows|, split, start)
  {
    hide RoundsLeft;
    hide VisitAt;
    if VisitAt(rows, split, start).Window? && split.step != 0 {
      VisitFilled(rows, split, start);
      RoundsShrink(rows, split, start);
      WalkFoldsFilled(rows, split, start + split.step);
    }
  }

  lemma VisitPositive(rows: seq<Row>, split: Split, start: nat)
    requires split.Positive()
    ensures VisitAt(rows, split, start) ==
              if !Fits(|rows|, split, start) then Leaves
              else if Training(rows, split, start) == [] then NoTraining
              else Window(ExpectedAt(rows, split, start))
  {
    hide RealizedBefore;
    if Fits(|rows|, split, start) {
      var k := start + split.train;
      assert Slice(rows, k, k + split.validation) == Validation(rows, split, start);
      assert Validation(rows, split, start)[0] == rows[k];
      assert Slice(rows, 0, k) == rows[..k];
    }
  }

  /** With positive sizes the loop neither raises nor runs on: it finds the folds of the windows a step apart. */
  lemma {:induction false} WalkPositive(rows: seq<Row>, split: Split, start: nat)
    requires split.Positive()
    ensures Walk(rows, split, start) == Folds(FoldsFrom(rows, split, start), Starved(rows, split, start))
    decreases |rows| - start
  {
    hide Training;
    hide VisitAt;
    VisitPositive(rows, split, start);
    if Fits(|rows|, split, start) && Training(rows, split, start) != [] {
      WalkPositive(rows, split, start + split.step);
      FoldsFromStep(rows, split, start);
    }
  }

  lemma FoldsFromStep(rows: seq<Row>, split: Split, start: nat)
    requires split.Positive() && Fits(|rows|, split, start) && Training(rows, split, start) != []
    ensures FoldsFrom(rows, split, start)
              == [ExpectedAt(rows, split, start)] + FoldsFrom(rows, split, start + split.step)
  {
    hide Training;
  }

  /** The start of round k. */
  ghost function RoundStart(split: Split, k: nat): int {
    if k == 0 then 0 else RoundStart(split, k - 1) + split.step
  }

  lemma {:induction false} NoStep(split: Split, k: nat)
    requires split.step == 0
    ensures RoundStart(split, k) == 0
  {
    if k > 0 {
      NoStep(split, k - 1);
    }
  }

  lemma {:induction false} RoundsEnd(rows: seq<Row>, split: Split, k: nat) returns (last: nat)
    requires split.step != 0
    ensures k <= last && !VisitAt(rows, split, RoundStart(split, last)).Window?
    decreases RoundsLeft(|rows|, split, RoundStart(split, k))
  {
    hide VisitAt;
    hide RoundsLeft;
    if VisitAt(rows, split, RoundStart(split, k)).Window? {
      RoundsShrink(rows, split, RoundStart(split, k));
      last := RoundsEnd(rows, split, k + 1);
    } else {
      last := k;
    }
  }

  lemma {:induction false} OnlyZeroStepRepeats(rows: seq<Row>, split: Split, start: int)
    ensures Walk(rows, split, start).Forever? <==> split.step == 0 && VisitAt(rows, split, start).Window?
    decreases RoundsLeft(|rows|, split, start)
  {
    hide VisitAt;
    hide RoundsLeft;
    if VisitAt(rows, split, start).Window? && split.step != 0 {
      RoundsShrink(rows, split, start);
      OnlyZeroStepRepeats(rows, split, start + split.step);
    }
  }

  /** The loop never ends if and only if every round finds a fold, which is so if and only if the step is 0 and the
      first window fits, is not empty and has a training row. */
  lemma NeverEndsIff(rows: seq<Row>, split: Split)
    ensures Walk(rows, split, 0).Forever? <==> forall k: nat :: VisitAt(rows, split, RoundStart(split, k)).Window?
    ensures Walk(rows, split, 0).Forever? <==> split.step == 0 && VisitAt(rows, split, 0).Window?
  {
    hide VisitAt;
    hide Walk;
    OnlyZeroStepRepeats(rows, split, 0);
    if split.step == 0 {
      forall k: nat ensures RoundStart(split, k) == 0 {
        NoStep(split, k);
      }
      assert RoundStart(split, 0) == 0;
    } else {
      var last := RoundsEnd(rows, split, 0);
    }
  }

  /** The first round's condition. */
  predicate Enters(n: nat, split: Split) {
    split.train + split.validation <= n && split.train > 0
  }

  lemma {:induction false} FallingStepStops(rows: seq<Row>, split: Split, start: int)
    requires split.step < 0 && split.train > 0 && start + split.train + split.validation <= |rows|
    ensures var r := Walk(rows, split, start); r.IndexError? || (r.Folds? && r.starved)
    decreases RoundsLeft(|rows|, split, start)
  {
    hide RoundsLeft;
    hide Slice;
    hide RealizedBefore;
    if VisitAt(rows, split, start).Window? {
      RoundsShrink(rows, split, start);
      FallingStepStops(rows, split, start + split.step);
    }
  }

  /** A negative step: unless the loop is not entered at all, it raises or runs out of training rows. */
  lemma NegativeStepOutcome(rows: seq<Row>, split: Split)
    requires split.step < 0
    ensures var r := Walk(rows, split, 0);
            if Enters(|rows|, split) then r.IndexError? || (r.Folds? && r.starved) else r == Folds([], false)
  {
    if Enters(|rows|, split) {
      FallingStepStops(rows, split, 0);
    }
  }
}
