/** What a passing walk-forward artifact says, written out on the source rows. */
module AuditRules {
  import opened Common
  import opened Sorting
  import opened FoldAudit
  import opened AuditVerdict
  import opened AuditTheorems

  // ---------------------------------------------------------------- reading the source

  /** An event with an endpoint and a label is a row of the source, or a defect in it. */
  ghost predicate Complete(e: Event) {
    e.endpoint.Some? && !e.hitLabel.NoLabel?
  }

  ghost predicate Sane(e: Event) {
    && e.id.Some? && e.hitLabel.Boolean? && e.direction.Direction? && e.timestamp.Some? && e.endpoint.Some?
    && e.timestamp.value < e.endpoint.value
  }

  ghost predicate Readable(events: seq<Event>) {
    && (forall i :: 0 <= i < |events| && Complete(events[i]) ==> Sane(events[i]))
    && (forall i, j :: 0 <= i < j < |events| && Complete(events[i]) && Complete(events[j]) ==>
          events[i].id != events[j].id)
  }

  /** The row that an event gives rise to. */
  ghost predicate RowFrom(r: Row, e: Event) {
    && Complete(e) && Sane(e)
    && r.id == e.id.value && r.timestamp == e.timestamp.value && r.realizedEnd == e.endpoint.value
    && r.bullish == e.direction.bullish && r.hit == e.hitLabel.hit
  }

  lemma ReadableInit(events: seq<Event>)
    requires events != []
    ensures var n := |events| - 1;
            Readable(events) <==>
              && Readable(events[..n])
              && (Complete(events[n]) ==>
                    Sane(events[n]) && forall i :: 0 <= i < n && Complete(events[i]) ==> events[i].id != events[n].id)
  {
    hide Complete;
    hide Sane;
    var n := |events| - 1;
    assert forall i :: 0 <= i < n ==> events[..n][i] == events[i];
  }

  lemma {:induction false} CollectedMeans(events: seq<Event>)
    ensures Collected(events).Some? <==> Readable(events)
    ensures Collected(events).Some? ==>
              forall r :: r in Collected(events).value <==> exists i :: 0 <= i < |events| && RowFrom(r, events[i])
  {
    if events != [] {
      var n := |events| - 1;
      var init, e := events[..n], events[n];
      CollectedMeans(init);
      ReadableInit(events);
      hide Readable;
      assert forall i :: 0 <= i < n ==> init[i] == events[i];
      if Collected(init).Some? {
        var rest := Collected(init).value;
        if Complete(e) && Sane(e) {
          IdTaken(init, rest, e.id.value);
          assert RowFrom(ToRow(e), e);
        }
        if Collected(events).Some? {
          forall r ensures r in Collected(events).value <==> exists i :: 0 <= i < |events| && RowFrom(r, events[i]) {
            if r in rest {
              var i :| 0 <= i < |init| && RowFrom(r, init[i]);
              assert RowFrom(r, events[i]);
            }
            if i :| 0 <= i < |events| && RowFrom(r, events[i]) {
              assert i < n ==> RowFrom(r, init[i]);
            }
          }
        }
      }
    }
  }

  lemma IdTaken(events: seq<Event>, rows: seq<Row>, id: EventId)
    requires Readable(events)
    requires forall r :: r in rows <==> exists i :: 0 <= i < |events| && RowFrom(r, events[i])
    ensures (exists r :: r in rows && r.id == id) <==>
              exists i :: 0 <= i < |events| && Complete(events[i]) && events[i].id == Some(id)
  {
    if r :| r in rows && r.id == id {
      var i :| 0 <= i < |events| && RowFrom(r, events[i]);
      assert Complete(events[i]) && events[i].id == Some(id);
    }
    if i :| 0 <= i < |events| && Complete(events[i]) && events[i].id == Some(id) {
      var r := ToRow(events[i]);
      assert RowFrom(r, events[i]);
      assert r in rows;
    }
  }

  /** The source is read if and only if no complete event is defective and no two share an identifier; the rows are
      then exactly the complete events, by time and identifier. */
  lemma SourceWrittenOut(events: seq<Event>)
    ensures SourceRows(events).Some? <==> Readable(events)
    ensures SourceRows(events).Some? ==>
              var rows := SourceRows(events).value;
              && (forall r :: r in rows <==> exists i :: 0 <= i < |events| && RowFrom(r, events[i]))
              && (forall i, j :: 0 <= i < j < |rows| ==>
                    rows[i].timestamp < rows[j].timestamp
                    || (rows[i].timestamp == rows[j].timestamp && rows[i].id < rows[j].id))
  {
    hide Collected;
    hide Sort;
    hide Readable;
    hide RowFrom;
    CollectedMeans(events);
    if Collected(events).Some? {
      var raw := Collected(events).value;
      var rows := Sort(RowLeq, raw);
      assert TotalPreorder(RowLeq);
      SortSorts(RowLeq, raw);
      SameMembers(raw, rows);
      ReadRowsGood(events);
      forall i, j | 0 <= i < j < |rows|
        ensures rows[i].timestamp < rows[j].timestamp
                || (rows[i].timestamp == rows[j].timestamp && rows[i].id < rows[j].id)
      {
        assert RowLeq(rows[i], rows[j]);
      }
    }
  }

  // ---------------------------------------------------------------- training rows as indices

  /** The rows before row v whose outcome was realised strictly before time t. */
  ghost function Past(rows: seq<Row>, v: nat, t: Time): (s: set<nat>)
    requires v <= |rows|
    ensures forall j: nat :: j in s <==> j < v && rows[j].realizedEnd < t
  {
    set j: nat | j < v && rows[j].realizedEnd < t
  }

  ghost function Toward(rows: seq<Row>, s: set<nat>, bullish: bool): (r: set<nat>)
    requires forall j :: j in s ==> j < |rows|
    ensures forall j :: j in r <==> j in s && rows[j].bullish == bullish
  {
    set j | j in s && rows[j].bullish == bullish
  }

  ghost function Hitting(rows: seq<Row>, s: set<nat>): (r: set<nat>)
    requires forall j :: j in s ==> j < |rows|
    ensures forall j :: j in r <==> j in s && rows[j].hit
  {
    set j | j in s && rows[j].hit
  }

  /** The same rows in order. */
  ghost function Listed(rows: seq<Row>, v: nat, t: Time): (ks: seq<nat>)
    requires v <= |rows|
    ensures forall x :: 0 <= x < |ks| ==> ks[x] in Past(rows, v, t)
    ensures forall x, y :: 0 <= x < y < |ks| ==> ks[x] < ks[y]
    ensures forall j :: j in Past(rows, v, t) ==> j in ks
  {
    if v == 0 then [] else Listed(rows, v - 1, t) + if rows[v - 1].realizedEnd < t then [v - 1] else []
  }

  ghost function At(rows: seq<Row>, ks: seq<nat>): (r: seq<Row>)
    requires forall x :: 0 <= x < |ks| ==> ks[x] < |rows|
    ensures |r| == |ks| && forall x :: 0 <= x < |ks| ==> r[x] == rows[ks[x]]
  {
    seq(|ks|, x requires 0 <= x < |ks| => rows[ks[x]])
  }

  lemma {:induction false} RealizedAt(rows: seq<Row>, v: nat, t: Time)
    requires v <= |rows|
    ensures RealizedBefore(rows[..v], t) == At(rows, Listed(rows, v, t))
  {
    if v > 0 {
      RealizedAt(rows, v - 1, t);
      assert rows[..v][..v - 1] == rows[..v - 1];
      var ks := Listed(rows, v - 1, t);
      assert At(rows, ks + [v - 1]) == At(rows, ks) + [rows[v - 1]];
    }
  }

  /** The training rows themselves. */
  ghost function Pool(rows: seq<Row>, v: nat, t: Time): seq<Row>
    requires v <= |rows|
  {
    At(rows, Listed(rows, v, t))
  }

  lemma OnePast(rows: seq<Row>, v: nat, t: Time)
    requires 0 < v <= |rows|
    ensures v - 1 !in Past(rows, v - 1, t)
    ensures rows[v - 1].realizedEnd < t ==> Past(rows, v, t) == Past(rows, v - 1, t) + {v - 1}
    ensures rows[v - 1].realizedEnd >= t ==> Past(rows, v, t) == Past(rows, v - 1, t)
  {
  }

  lemma OnePooled(rows: seq<Row>, v: nat, t: Time)
    requires 0 < v <= |rows|
    ensures rows[v - 1].realizedEnd < t ==> Pool(rows, v, t) == Pool(rows, v - 1, t) + [rows[v - 1]]
    ensures rows[v - 1].realizedEnd >= t ==> Pool(rows, v, t) == Pool(rows, v - 1, t)
  {
    var ks := Listed(rows, v - 1, t);
    assert At(rows, ks + [v - 1]) == At(rows, ks) + [rows[v - 1]];
  }

  lemma NonePast(rows: seq<Row>, t: Time)
    ensures Past(rows, 0, t) == {} && Pool(rows, 0, t) == []
  {
  }

  lemma NoneToward(rows: seq<Row>, t: Time, bullish: bool)
    ensures Toward(rows, Past(rows, 0, t), bullish) == {} && SameDirection(Pool(rows, 0, t), bullish) == []
  {
  }

  /** As many rows, and as many hits, as a set of row indices. */
  ghost predicate Tallies(rows: seq<Row>, pool: seq<Row>, s: set<nat>)
    requires forall i :: i in s ==> i < |rows|
  {
    |pool| == |s| && Positives(pool) == |Hitting(rows, s)|
  }

  lemma OneMore(rows: seq<Row>, pool: seq<Row>, s: set<nat>, j: nat)
    requires (forall i :: i in s ==> i < |rows|) && j < |rows| && j !in s && Tallies(rows, pool, s)
    ensures Tallies(rows, pool + [rows[j]], s + {j})
  {
    assert (pool + [rows[j]])[..|pool|] == pool;
    assert Hitting(rows, s + {j}) == Hitting(rows, s) + if rows[j].hit then {j} else {};
  }

  lemma NoneTally(rows: seq<Row>)
    ensures Tallies(rows, [], {})
  {
    assert Hitting(rows, {}) == {};
  }

  lemma OneDirected(pool: seq<Row>, r: Row, bullish: bool)
    ensures r.bullish == bullish ==> SameDirection(pool + [r], bullish) == SameDirection(pool, bullish) + [r]
    ensures r.bullish != bullish ==> SameDirection(pool + [r], bullish) == SameDirection(pool, bullish)
  {
    assert (pool + [r])[..|pool|] == pool;
  }

  lemma OneToward(rows: seq<Row>, s: set<nat>, j: nat, bullish: bool)
    requires (forall i :: i in s ==> i < |rows|) && j < |rows| && j !in s
    ensures j !in Toward(rows, s, bullish)
    ensures rows[j].bullish == bullish ==> Toward(rows, s + {j}, bullish) == Toward(rows, s, bullish) + {j}
    ensures rows[j].bullish != bullish ==> Toward(rows, s + {j}, bullish) == Toward(rows, s, bullish)
  {
  }

  lemma {:induction false} PoolTallies(rows: seq<Row>, v: nat, t: Time)
    requires v <= |rows|
    ensures Tallies(rows, Pool(rows, v, t), Past(rows, v, t))
  {
    hide Tallies;
    hide Past;
    hide Pool;
    if v == 0 {
      NonePast(rows, t);
      NoneTally(rows);
    } else {
      PoolTallies(rows, v - 1, t);
      OnePast(rows, v, t);
      OnePooled(rows, v, t);
      if rows[v - 1].realizedEnd < t {
        OneMore(rows, Pool(rows, v - 1, t), Past(rows, v - 1, t), v - 1);
      }
    }
  }

  lemma OneMoreDirected(rows: seq<Row>, pool: seq<Row>, s: set<nat>, j: nat, bullish: bool)
    requires (forall i :: i in s ==> i < |rows|) && j < |rows| && j !in s
    requires Tallies(rows, SameDirection(pool, bullish), Toward(rows, s, bullish))
    ensures Tallies(rows, SameDirection(pool + [rows[j]], bullish), Toward(rows, s + {j}, bullish))
  {
    hide Tallies;
    hide Toward;
    hide SameDirection;
    OneDirected(pool, rows[j], bullish);
    OneToward(rows, s, j, bullish);
    if rows[j].bullish == bullish {
      OneMore(rows, SameDirection(pool, bullish), Toward(rows, s, bullish), j);
    }
  }

  lemma {:induction false} DirectedTallies(rows: seq<Row>, v: nat, t: Time, bullish: bool)
    requires v <= |rows|
    ensures Tallies(rows, SameDirection(Pool(rows, v, t), bullish), Toward(rows, Past(rows, v, t), bullish))
  {
    hide Tallies;
    hide Past;
    hide Pool;
    hide Toward;
    hide SameDirection;
    if v == 0 {
      NoneToward(rows, t, bullish);
      NoneTally(rows);
    } else {
      DirectedTallies(rows, v - 1, t, bullish);
      OnePast(rows, v, t);
      OnePooled(rows, v, t);
      if rows[v - 1].realizedEnd < t {
        OneMoreDirected(rows, Pool(rows, v - 1, t), Past(rows, v - 1, t), v - 1, bullish);
      }
    }
  }

  lemma ListedCounts(rows: seq<Row>, v: nat, t: Time)
    requires v <= |rows|
    ensures |Listed(rows, v, t)| == |Past(rows, v, t)|
    ensures Positives(At(rows, Listed(rows, v, t))) == |Hitting(rows, Past(rows, v, t))|
  {
    PoolTallies(rows, v, t);
  }

  lemma TowardCounts(rows: seq<Row>, v: nat, t: Time, bullish: bool)
    requires v <= |rows|
    ensures var history := SameDirection(At(rows, Listed(rows, v, t)), bullish);
            && |history| == |Toward(rows, Past(rows, v, t), bullish)|
            && Positives(history) == |Hitting(rows, Toward(rows, Past(rows, v, t), bullish))|
  {
    DirectedTallies(rows, v, t, bullish);
  }

  // ---------------------------------------------------------------- windows

  lemma {:induction false} StartsAre(rows: seq<Row>, split: Split, start: nat, i: nat)
    requires split.Positive() && i < |Starts(rows, split, start)|
    ensures Starts(rows, split, start)[i] == start + i * split.step
    decreases i
  {
    hide Training;
    if i > 0 {
      StartsAre(rows, split, start + split.step, i - 1);
      assert i * split.step == (i - 1) * split.step + split.step;
    }
  }

  lemma {:induction false} StartsAll(rows: seq<Row>, split: Split, start: nat)
    requires split.Positive() && !Starved(rows, split, start)
    ensures !Fits(|rows|, split, start + |Starts(rows, split, start)| * split.step)
    decreases |rows| - start
  {
    hide Training;
    if Fits(|rows|, split, start) {
      StartsAll(rows, split, start + split.step);
      var n := |Starts(rows, split, start + split.step)|;
      assert (n + 1) * split.step == n * split.step + split.step;
    }
  }

  /** Round m of a passing artifact has a fold if and only if its window fits in the rows. */
  lemma FoldsWrittenOut(tools: Tools, rows: seq<Row>, a: Artifact, m: nat)
    requires Passes(tools, rows, a)
    ensures a.split.train > 0 && a.split.step >= a.split.validation > 0
    ensures m < |a.folds| <==> m * a.split.step + a.split.train + a.split.validation <= |rows|
  {
    hide Starts;
    hide ScoresOk;
    hide FoldOk;
    hide AggregatesOk;
    var n := |a.folds|;
    StartsAll(rows, a.split, 0);
    if m < n {
      StartsAre(rows, a.split, 0, m);
      StartsShape(rows, a.split, 0);
    } else {
      StepsGrow(n, m, a.split.step);
    }
  }

  lemma StepsGrow(n: nat, m: nat, step: int)
    requires n <= m && step > 0
    ensures n * step <= m * step
  {
  }

  /** The first row of window i. */
  ghost function WindowAt(split: Split, i: nat): int {
    i * split.step + split.train
  }

  lemma ExpectedIs(rows: seq<Row>, split: Split, i: nat)
    requires split.Positive() && i < |ExpectedFolds(rows, split)|
    ensures var v := WindowAt(split, i);
            && 0 < v && v + split.validation <= |rows|
            && var want := ExpectedFolds(rows, split)[i];
               && want.training == At(rows, Listed(rows, v, rows[v].timestamp))
               && want.validation == rows[v..v + split.validation] && want.pool == v
  {
    hide RealizedBefore;
    hide Starts;
    hide Listed;
    StartsAre(rows, split, 0, i);
    StartsShape(rows, split, 0);
    var start := Starts(rows, split, 0)[i];
    assert ExpectedFolds(rows, split)[i] == ExpectedAt(rows, split, start);
    WindowIs(split, i, start);
    ExpectedAtIs(rows, split, start);
  }

  lemma WindowIs(split: Split, i: nat, start: int)
    requires start == i * split.step
    ensures WindowAt(split, i) == start + split.train
  {
  }

  lemma ExpectedAtIs(rows: seq<Row>, split: Split, start: nat)
    requires split.Positive() && Fits(|rows|, split, start)
    ensures var v, want := start + split.train, ExpectedAt(rows, split, start);
            && want.training == At(rows, Listed(rows, v, rows[v].timestamp))
            && want.validation == rows[v..v + split.validation] && want.pool == v
  {
    hide RealizedBefore;
    hide Listed;
    RealizedAt(rows, start + split.train, rows[start + split.train].timestamp);
  }

  // ---------------------------------------------------------------- what a pass says of a fold

  ghost function Share(part: nat, whole: nat): real
    requires whole > 0
  {
    part as real / whole as real
  }

  /** The header of a fold with window start v: its counts, times, training identifiers and rate, on the rows. */
  ghost predicate HeaderWritten(tools: Tools, rows: seq<Row>, split: Split, v: nat, f: Fold)
    requires v < |rows|
  {
    var past, ks := Past(rows, v, rows[v].timestamp), Listed(rows, v, rows[v].timestamp);
    && split.validation > 0 && v + split.validation <= |rows| && past != {} && ks != []
    && f.trainEvents == |past| && f.validationEvents == split.validation && f.embargoed == v - |past|
    && f.trainingIds == Some(seq(|ks|, x requires 0 <= x < |ks| => rows[ks[x]].id))
    && f.trainStart == rows[ks[0]].timestamp && f.trainEnd == rows[ks[|ks| - 1]].timestamp
    && f.validationStart == rows[v].timestamp && f.validationEnd == rows[v + split.validation - 1].timestamp
    && f.rate == tools.round(Share(|Hitting(rows, past)|, |past|))
  }

  /** The recomputed fold with window start v. */
  ghost predicate Recomputed(rows: seq<Row>, split: Split, v: int, want: Expected) {
    && 0 < v && split.validation > 0 && v + split.validation <= |rows|
    && want.training == At(rows, Listed(rows, v, rows[v].timestamp)) && want.training != []
    && want.validation == rows[v..v + split.validation] && want.pool == v
  }

  lemma HeaderSpelled(tools: Tools, rows: seq<Row>, split: Split, v: nat, want: Expected, f: Fold)
    requires Recomputed(rows, split, v, want)
    requires f.trainingIds == Some(Ids(want.training)) && HeaderOk(tools, want, f)
    ensures HeaderWritten(tools, rows, split, v, f)
  {
    hide Listed;
    hide Past;
    hide Hitting;
    hide Positives;
    var ks := Listed(rows, v, rows[v].timestamp);
    ListedCounts(rows, v, rows[v].timestamp);
    assert Ids(want.training) == seq(|ks|, x requires 0 <= x < |ks| => rows[ks[x]].id);
  }

  /** In a passing artifact the header of every fold is the one recomputed from the rows. */
  lemma HeaderWrittenOut(tools: Tools, rows: seq<Row>, a: Artifact, i: nat)
    requires Passes(tools, rows, a) && i < |a.folds|
    ensures var v := WindowAt(a.split, i);
            && 0 < v < |rows| && HeaderWritten(tools, rows, a.split, v, a.folds[i])
            && |a.folds[i].predictions| == a.split.validation
  {
    hide ExpectedFolds;
    hide Listed;
    hide HeaderOk;
    hide HeaderWritten;
    hide PredictionsOk;
    hide ScoresOk;
    hide AggregatesOk;
    var want := ExpectedFolds(rows, a.split)[i];
    assert FoldOk(tools, want, a.folds[i]);
    ExpectedIs(rows, a.split, i);
    HeaderSpelled(tools, rows, a.split, WindowAt(a.split, i), want, a.folds[i]);
  }

  /** A prediction of a fold with window start v, for row k: everything in it, on the rows. */
  ghost predicate PredictionWritten(tools: Tools, rows: seq<Row>, split: Split, v: nat, k: nat, p: Prediction)
    requires v < |rows|
  {
    && v <= k < v + split.validation <= |rows| && p.id == Some(rows[k].id)
    && p.timestamp == rows[k].timestamp && p.direction == (if rows[k].bullish then Up else Down)
    && p.label01 == (if rows[k].hit then 1 else 0) && p.methodOk
    && var history := Toward(rows, Past(rows, v, rows[v].timestamp), rows[k].bullish);
       && |history| > 0
       && p.probability == Some(tools.round(Share(|Hitting(rows, history)|, |history|)))
       && 0.0 <= p.probability.value <= 1.0
  }

  lemma PredictionSpelled(tools: Tools, rows: seq<Row>, split: Split, v: nat, want: Expected, p: Prediction, k: nat)
    requires Recomputed(rows, split, v, want) && v <= k < v + split.validation && p.id == Some(rows[k].id)
    requires DetailsOk(tools, want, rows[k], p)
    ensures PredictionWritten(tools, rows, split, v, k, p)
  {
    hide Listed;
    hide Past;
    hide Hitting;
    hide Toward;
    hide SameDirection;
    hide Positives;
    TowardCounts(rows, v, rows[v].timestamp, rows[k].bullish);
  }

  /** In a passing artifact every prediction is the one recomputed for its row: the rounded share of hits among the
      training rows of the row's direction, with the row's own time, direction and label. */
  lemma PredictionWrittenOut(tools: Tools, rows: seq<Row>, a: Artifact, i: nat, j: nat) returns (k: nat)
    requires Passes(tools, rows, a) && i < |a.folds| && j < |a.folds[i].predictions|
    ensures var v := WindowAt(a.split, i);
            0 < v < |rows| && PredictionWritten(tools, rows, a.split, v, k, a.folds[i].predictions[j])
  {
    hide ExpectedFolds;
    hide Listed;
    hide HeaderOk;
    hide DetailsOk;
    hide ScoresOk;
    hide AggregatesOk;
    hide PredictionWritten;
    var want, p, v := ExpectedFolds(rows, a.split)[i], a.folds[i].predictions[j], WindowAt(a.split, i);
    assert FoldOk(tools, want, a.folds[i]);
    assert PredictionOk(tools, want, p);
    ExpectedIs(rows, a.split, i);
    LookupId(want.validation, p.id);
    var row := Lookup(want.validation, p.id).value;
    var x :| 0 <= x < |want.validation| && want.validation[x] == row;
    k := v + x;
    assert rows[k] == row;
    PredictionSpelled(tools, rows, a.split, v, want, p, k);
  }

  /** The scores of a fold: of its probabilities, and of its unrounded rate, against its labels. */
  lemma ScoresWrittenOut(tools: Tools, rows: seq<Row>, a: Artifact, i: nat)
    requires Passes(tools, rows, a) && i < |a.folds|
    ensures var v := WindowAt(a.split, i); 0 < v < |rows| && Past(rows, v, rows[v].timestamp) != {}
    ensures forall j :: 0 <= j < |a.folds[i].predictions| ==> a.folds[i].predictions[j].probability.Some?
    ensures var v, preds := WindowAt(a.split, i), a.folds[i].predictions;
            var past := Past(rows, v, rows[v].timestamp);
            var labels := seq(|preds|, j requires 0 <= j < |preds| => preds[j].label01);
            && a.folds[i].model
               == tools.score(seq(|preds|, j requires 0 <= j < |preds| => preds[j].probability.value), labels)
            && a.folds[i].baseline
               == tools.score(seq(|preds|, j requires 0 <= j < |preds| => Share(|Hitting(rows, past)|, |past|)), labels)
  {
    hide ExpectedFolds;
    hide Listed;
    hide Hitting;
    hide DetailsOk;
    hide AggregatesOk;
    hide Positives;
    var want, f, v := ExpectedFolds(rows, a.split)[i], a.folds[i], WindowAt(a.split, i);
    HeaderWrittenOut(tools, rows, a, i);
    assert FoldOk(tools, want, f);
    ExpectedIs(rows, a.split, i);
    ListedCounts(rows, v, rows[v].timestamp);
    ScoresSpelled(tools, want, f, Past(rows, v, rows[v].timestamp), Share(Positives(want.training), |want.training|));
  }

  lemma ScoresSpelled(tools: Tools, want: Expected, f: Fold, past: set<nat>, rate: real)
    requires want.training != [] && PredictionsOk(tools, want, f.predictions) && ScoresOk(tools, want, f)
    requires rate == Rate(want.training)
    ensures forall j :: 0 <= j < |f.predictions| ==> f.predictions[j].probability.Some?
    ensures var preds := f.predictions;
            var labels := seq(|preds|, j requires 0 <= j < |preds| => preds[j].label01);
            && f.model == tools.score(seq(|preds|, j requires 0 <= j < |preds| => preds[j].probability.value), labels)
            && f.baseline == tools.score(seq(|preds|, j requires 0 <= j < |preds| => rate), labels)
  {
    hide Rate;
    var preds := f.predictions;
    forall j | 0 <= j < |preds| ensures preds[j].probability.Some? {
      assert PredictionOk(tools, want, preds[j]);
    }
    assert Probabilities(preds) == seq(|preds|, j requires 0 <= j < |preds| => preds[j].probability.value);
    assert Labels(preds) == seq(|preds|, j requires 0 <= j < |preds| => preds[j].label01);
    assert seq(|preds|, _ => rate) == seq(|preds|, j requires 0 <= j < |preds| => rate);
  }

  // ---------------------------------------------------------------- tampering

  lemma SameKey(rows: seq<Row>, x: nat, y: nat)
    requires GoodRows(rows) && x < |rows| && y < |rows| && rows[x].id == rows[y].id
    ensures x == y
  {
  }

  /** Two passing artifacts with the same split cannot predict the same event of the same fold differently. */
  lemma PassesAgree(tools: Tools, rows: seq<Row>, a: Artifact, b: Artifact, i: nat, j: nat, k: nat)
    requires GoodRows(rows) && Passes(tools, rows, a) && Passes(tools, rows, b) && a.split == b.split
    requires i < |a.folds| && i < |b.folds| && j < |a.folds[i].predictions| && k < |b.folds[i].predictions|
    requires a.folds[i].predictions[j].id == b.folds[i].predictions[k].id
    ensures a.folds[i].predictions[j] == b.folds[i].predictions[k]
  {
    hide Passes;
    hide GoodRows;
    hide Past;
    hide Toward;
    hide Hitting;
    var x := PredictionWrittenOut(tools, rows, a, i, j);
    var y := PredictionWrittenOut(tools, rows, b, i, k);
    SameKey(rows, x, y);
  }

  /** Hence an artifact that differs from a passing one in the probability of some prediction, whatever else was
      adjusted to fit, never passes. */
  lemma TamperedNeverPasses(tools: Tools, rows: seq<Row>, a: Artifact, b: Artifact, i: nat, j: nat)
    requires GoodRows(rows) && Passes(tools, rows, a) && a.split == b.split
    requires i < |a.folds| && i < |b.folds| && j < |a.folds[i].predictions| && j < |b.folds[i].predictions|
    requires a.folds[i].predictions[j].id == b.folds[i].predictions[j].id
    requires a.folds[i].predictions[j].probability != b.folds[i].predictions[j].probability
    ensures !Passes(tools, rows, b)
  {
    hide Passes;
    if Passes(tools, rows, b) {
      PassesAgree(tools, rows, a, b, i, j, j);
    }
  }

  /** The smallest such change: one probability and nothing else. */
  lemma OneProbabilityChanged(tools: Tools, rows: seq<Row>, a: Artifact, i: nat, j: nat, q: Option<real>)
    requires GoodRows(rows) && Passes(tools, rows, a) && i < |a.folds| && j < |a.folds[i].predictions|
    requires q != a.folds[i].predictions[j].probability
    ensures var f := a.folds[i];
            var tampered := f.(predictions := f.predictions[j := f.predictions[j].(probability := q)]);
            !Passes(tools, rows, a.(folds := a.folds[i := tampered]))
  {
    hide Passes;
    var f := a.folds[i];
    var tampered := f.(predictions := f.predictions[j := f.predictions[j].(probability := q)]);
    TamperedNeverPasses(tools, rows, a, a.(folds := a.folds[i := tampered]), i, j);
  }

  // ---------------------------------------------------------------- aggregates

  ghost function FoldProbabilities(preds: seq<Prediction>): seq<real> {
    seq(|preds|, j requires 0 <= j < |preds| => if preds[j].probability.Some? then preds[j].probability.value else 0.0)
  }

  ghost function EveryProbability(folds: seq<Fold>, n: nat): seq<real>
    requires n <= |folds|
  {
    if n == 0 then [] else EveryProbability(folds, n - 1) + FoldProbabilities(folds[n - 1].predictions)
  }

  ghost function EveryLabel(folds: seq<Fold>, n: nat): seq<int>
    requires n <= |folds|
  {
    if n == 0 then []
    else
      var preds := folds[n - 1].predictions;
      EveryLabel(folds, n - 1) + seq(|preds|, j requires 0 <= j < |preds| => preds[j].label01)
  }

  ghost function EveryRate(folds: seq<Fold>, n: nat): seq<real>
    requires n <= |folds|
  {
    if n == 0 then [] else EveryRate(folds, n - 1) + seq(|folds[n - 1].predictions|, (j: int) => folds[n - 1].rate)
  }

  lemma {:induction false} EveryMeans(folds: seq<Fold>, n: nat)
    requires n <= |folds|
    ensures |AllPredictions(folds[..n])| == |EveryProbability(folds, n)|
    ensures EveryProbability(folds, n) == FoldProbabilities(AllPredictions(folds[..n]))
    ensures EveryLabel(folds, n) == Labels(AllPredictions(folds[..n]))
    ensures EveryRate(folds, n) == AllRates(folds[..n])
  {
    if n > 0 {
      EveryMeans(folds, n - 1);
      assert folds[..n][..n - 1] == folds[..n - 1];
    }
  }

  /** The aggregate scores of a passing artifact that predicts anything: of all probabilities, and of each fold's
      reported rate repeated for its predictions, against all labels, fold after fold. */
  lemma AggregateWrittenOut(tools: Tools, rows: seq<Row>, a: Artifact)
    requires Passes(tools, rows, a) && a.folds != []
    ensures var n := |a.folds|;
            && a.aggregateModel == tools.score(EveryProbability(a.folds, n), EveryLabel(a.folds, n))
            && a.aggregateBaseline == tools.score(EveryRate(a.folds, n), EveryLabel(a.folds, n))
  {
    hide ExpectedFolds;
    hide FoldOk;
    hide AllRates;
    hide EveryProbability;
    hide EveryLabel;
    hide EveryRate;
    hide Labels;
    hide HeaderWritten;
    var n := |a.folds|;
    EveryMeans(a.folds, n);
    assert a.folds[..n] == a.folds;
    HeaderWrittenOut(tools, rows, a, n - 1);
    var preds := AllPredictions(a.folds);
    assert preds != [];
    PassingProbable(tools, rows, a);
    hide AllPredictions;
    assert Probabilities(preds) == FoldProbabilities(preds);
  }

  lemma PassingProbable(tools: Tools, rows: seq<Row>, a: Artifact)
    requires Passes(tools, rows, a)
    ensures forall j :: 0 <= j < |AllPredictions(a.folds)| ==> AllPredictions(a.folds)[j].probability.Some?
  {
    hide HeaderOk;
    hide ScoresOk;
    hide PredictionsOk;
    var want := ExpectedFolds(rows, a.split);
    hide ExpectedFolds;
    AllProbable(tools, want, a.folds, |a.folds|);
    assert a.folds[..|a.folds|] == a.folds;
  }
}
