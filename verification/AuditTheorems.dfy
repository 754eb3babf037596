/** What a PASS guarantees, and why the leakage control is always rejected. */
module AuditTheorems {
  import opened Arithmetic
  import opened Common
  import opened Sorting
  import opened FoldAudit
  import opened AuditVerdict

  // ---------------------------------------------------------------- membership in a fold

  lemma {:induction false} FoundAll(tools: Tools, want: Expected, preds: seq<Prediction>)
    requires PredictionsOk(tools, want, preds)
    ensures |FoundIds(want, preds)| == |preds|
    ensures forall j :: 0 <= j < |preds| ==> preds[j].id == Some(FoundIds(want, preds)[j])
    ensures forall j :: 0 <= j < |preds| ==> FoundIds(want, preds)[j] in Ids(want.validation)
  {
    hide DetailsOk;
    if preds != [] {
      var n := |preds| - 1;
      var init := preds[..n];
      assert forall j :: 0 <= j < n ==> init[j] == preds[j];
      FoundAll(tools, want, init);
      assert PredictionOk(tools, want, preds[n]);
      LookupId(want.validation, preds[n].id);
      var row := Lookup(want.validation, preds[n].id).value;
      var k :| 0 <= k < |want.validation| && want.validation[k] == row;
      assert Ids(want.validation)[k] == row.id;
    }
  }

  lemma {:induction false} PartOfAllFound(want: seq<Expected>, folds: seq<Fold>, i: nat)
    requires |folds| <= |want| && i < |folds| && NoRepeats(AllFound(want, folds))
    ensures NoRepeats(FoundIds(want[i], folds[i].predictions))
    decreases |folds|
  {
    hide FoundIds;
    var n := |folds| - 1;
    NoRepeatsConcat(AllFound(want, folds[..n]), FoundIds(want[n], folds[n].predictions));
    if i < n {
      PartOfAllFound(want, folds[..n], i);
    }
  }

  lemma RemovedAt(b: seq<EventId>, k: nat)
    requires k < |b|
    ensures multiset(b) == multiset(b[..k] + b[k + 1..]) + multiset{b[k]}
    ensures forall y :: y in b && y != b[k] ==> y in b[..k] + b[k + 1..]
  {
    assert b == b[..k] + [b[k]] + b[k + 1..];
  }

  /** A list without repeats, all of whose items are among as many others, is a permutation of them. */
  lemma {:induction false} SameSizeCovers(a: seq<EventId>, b: seq<EventId>)
    requires NoRepeats(a) && |a| == |b| && forall x :: x in a ==> x in b
    ensures multiset(a) == multiset(b)
  {
    if a != [] {
      var n := |a| - 1;
      var x := a[n];
      assert x in a;
      var k :| 0 <= k < |b| && b[k] == x;
      RemovedAt(b, k);
      assert a == a[..n] + [x];
      NoRepeatsSnoc(a[..n], x);
      forall y | y in a[..n] ensures y in b[..k] + b[k + 1..] {
        assert y in a;
      }
      SameSizeCovers(a[..n], b[..k] + b[k + 1..]);
    }
  }

  // ---------------------------------------------------------------- what PASS guarantees

  /** The window of fold i as indices into the source rows. */
  ghost function WindowStart(rows: seq<Row>, split: Split, i: nat): int
    requires split.Positive() && i < |Starts(rows, split, 0)|
  {
    Starts(rows, split, 0)[i] + split.train
  }

  /** Validation windows of different folds do not share a row. */
  lemma WindowsDisjoint(tools: Tools, rows: seq<Row>, a: Artifact, i: nat, j: nat)
    requires Passes(tools, rows, a)
    requires i < j < |a.folds|
    ensures |Starts(rows, a.split, 0)| == |a.folds|
    ensures WindowStart(rows, a.split, i) + a.split.validation <= WindowStart(rows, a.split, j)
  {
    StartsShape(rows, a.split, 0);
  }

  /** The identifiers of a prediction list in which every prediction has one. */
  ghost function PredictedIds(preds: seq<Prediction>): seq<EventId>
    requires forall j :: 0 <= j < |preds| ==> preds[j].id.Some?
  {
    seq(|preds|, j requires 0 <= j < |preds| => preds[j].id.value)
  }

  lemma FoldPredictionsAreWindow(tools: Tools, want: Expected, preds: seq<Prediction>)
    requires PredictionsOk(tools, want, preds) && |preds| == |want.validation| && NoRepeats(FoundIds(want, preds))
    ensures forall j :: 0 <= j < |preds| ==> preds[j].id.Some?
    ensures multiset(PredictedIds(preds)) == multiset(Ids(want.validation))
  {
    hide FoundIds;
    FoundAll(tools, want, preds);
    var found := FoundIds(want, preds);
    forall x | x in found ensures x in Ids(want.validation) {
      var j :| 0 <= j < |found| && found[j] == x;
    }
    SameSizeCovers(found, Ids(want.validation));
    assert found == PredictedIds(preds);
  }

  /** The predictions of each fold are its validation rows, each exactly once. */
  lemma PredictionsAreWindow(tools: Tools, rows: seq<Row>, a: Artifact, i: nat)
    requires Passes(tools, rows, a) && i < |a.folds|
    ensures var want := ExpectedFolds(rows, a.split);
            && |want| == |a.folds|
            && (forall j :: 0 <= j < |a.folds[i].predictions| ==> a.folds[i].predictions[j].id.Some?)
            && multiset(PredictedIds(a.folds[i].predictions)) == multiset(Ids(want[i].validation))
  {
    hide ExpectedFolds;
    hide ScoresOk;
    hide HeaderOk;
    hide FoundIds;
    hide PredictionsOk;
    var want := ExpectedFolds(rows, a.split);
    assert FoldOk(tools, want[i], a.folds[i]);
    PartOfAllFound(want, a.folds, i);
    FoldPredictionsAreWindow(tools, want[i], a.folds[i].predictions);
  }

  /** The identifiers of the first n reconstructed windows, fold after fold. */
  ghost function AllWindowIds(want: seq<Expected>, n: nat): seq<EventId>
    requires n <= |want|
  {
    if n == 0 then [] else AllWindowIds(want, n - 1) + Ids(want[n - 1].validation)
  }

  ghost predicate FoldListed(tools: Tools, want: Expected, got: Fold) {
    PredictionsOk(tools, want, got.predictions) && |got.predictions| == |want.validation|
  }

  ghost predicate HaveIds(preds: seq<Prediction>) {
    forall j :: 0 <= j < |preds| ==> preds[j].id.Some?
  }

  lemma IdsConcat(a: seq<Prediction>, b: seq<Prediction>)
    requires HaveIds(a) && HaveIds(b)
    ensures HaveIds(a + b) && PredictedIds(a + b) == PredictedIds(a) + PredictedIds(b)
  {
  }

  /** One fold: its predictions all have identifiers of the window, and cover it. */
  lemma FoldCovers(tools: Tools, want: Expected, got: Fold)
    requires FoldListed(tools, want, got) && NoRepeats(FoundIds(want, got.predictions))
    ensures HaveIds(got.predictions) && FoundIds(want, got.predictions) == PredictedIds(got.predictions)
    ensures multiset(FoundIds(want, got.predictions)) == multiset(Ids(want.validation))
  {
    hide FoundIds;
    hide PredictionsOk;
    FoundAll(tools, want, got.predictions);
    FoldPredictionsAreWindow(tools, want, got.predictions);
  }

  lemma {:induction false} AllPredicted(tools: Tools, want: seq<Expected>, folds: seq<Fold>)
    requires |folds| <= |want| && NoRepeats(AllFound(want, folds))
    requires forall i :: 0 <= i < |folds| ==> FoldListed(tools, want[i], folds[i])
    ensures HaveIds(AllPredictions(folds)) && PredictedIds(AllPredictions(folds)) == AllFound(want, folds)
    ensures multiset(AllFound(want, folds)) == multiset(AllWindowIds(want, |folds|))
  {
    hide FoundIds;
    hide FoldListed;
    hide PredictedIds;
    hide NoRepeats;
    hide HaveIds;
    hide Ids;
    if folds == [] {
      NothingPredicted();
    } else {
      var n := |folds| - 1;
      var init := folds[..n];
      NoRepeatsParts(AllFound(want, init), FoundIds(want[n], folds[n].predictions));
      AllPredicted(tools, want, init);
      FoldCovers(tools, want[n], folds[n]);
      IdsConcat(AllPredictions(init), folds[n].predictions);
    }
  }

  lemma NothingPredicted()
    ensures HaveIds([]) && PredictedIds([]) == []
  {
  }

  lemma NoRepeatsParts(a: seq<EventId>, b: seq<EventId>)
    requires NoRepeats(a + b)
    ensures NoRepeats(a) && NoRepeats(b)
  {
    NoRepeatsConcat(a, b);
  }

  /** Source row k lies in the validation window of some fold. */
  ghost predicate Validated(rows: seq<Row>, split: Split, k: nat)
    requires split.Positive()
  {
    exists i :: 0 <= i < |Starts(rows, split, 0)|
      && WindowStart(rows, split, i) <= k < WindowStart(rows, split, i) + split.validation
  }

  lemma {:induction false} WindowIdSource(want: seq<Expected>, n: nat, id: EventId)
    requires n <= |want|
    ensures id in AllWindowIds(want, n) <==>
              exists i, k :: 0 <= i < n && 0 <= k < |want[i].validation| && want[i].validation[k].id == id
  {
    if n > 0 {
      WindowIdSource(want, n - 1, id);
      var last := want[n - 1].validation;
      if id in Ids(last) {
        var k :| 0 <= k < |last| && Ids(last)[k] == id;
      }
      if k :| 0 <= k < |last| && last[k].id == id {
        assert Ids(last)[k] == id;
      }
    }
  }

  lemma WindowRow(rows: seq<Row>, split: Split, i: nat)
    requires split.Positive() && i < |Starts(rows, split, 0)|
    ensures var want := ExpectedFolds(rows, split); var start := WindowStart(rows, split, i);
            && |want| == |Starts(rows, split, 0)| && 0 <= start && start + split.validation <= |rows|
            && want[i].validation == rows[start..start + split.validation]
  {
    hide Training;
    StartsShape(rows, split, 0);
  }

  lemma SameRow(rows: seq<Row>, a: nat, b: nat)
    requires GoodRows(rows) && a < |rows| && b < |rows| && rows[a].id == rows[b].id
    ensures a == b
  {
  }

  /** The identifier of row k is in the windows exactly when row k is. */
  lemma RowInWindow(rows: seq<Row>, split: Split, k: nat)
    requires split.Positive() && GoodRows(rows) && k < |rows|
    ensures rows[k].id in AllWindowIds(ExpectedFolds(rows, split), |ExpectedFolds(rows, split)|) <==>
              Validated(rows, split, k)
  {
    hide ExpectedFolds;
    hide Starts;
    hide WindowStart;
    hide GoodRows;
    hide AllWindowIds;
    var want := ExpectedFolds(rows, split);
    WindowIdSource(want, |want|, rows[k].id);
    if i, c :| 0 <= i < |want| && 0 <= c < |want[i].validation| && want[i].validation[c].id == rows[k].id {
      WindowRow(rows, split, i);
      SameRow(rows, WindowStart(rows, split, i) + c, k);
      assert Validated(rows, split, k);
    }
    if Validated(rows, split, k) {
      var i :| 0 <= i < |Starts(rows, split, 0)|
        && WindowStart(rows, split, i) <= k < WindowStart(rows, split, i) + split.validation;
      WindowRow(rows, split, i);
      assert want[i].validation[k - WindowStart(rows, split, i)].id == rows[k].id;
    }
  }

  /** The predictions of a passing artifact, over all folds, and the validation rows are in bijection: the artifact
      predicts each source row once if it lies in a window and never otherwise, and predicts nothing else. */
  lemma PredictionsCover(tools: Tools, rows: seq<Row>, a: Artifact)
    requires GoodRows(rows) && Passes(tools, rows, a)
    ensures var want, preds := ExpectedFolds(rows, a.split), AllPredictions(a.folds);
            && (forall j :: 0 <= j < |preds| ==> preds[j].id.Some?)
            && multiset(PredictedIds(preds)) == multiset(AllWindowIds(want, |want|))
            && (forall k :: 0 <= k < |rows| ==>
                  multiset(PredictedIds(preds))[rows[k].id] == if Validated(rows, a.split, k) then 1 else 0)
  {
    hide ExpectedFolds;
    hide ScoresOk;
    hide HeaderOk;
    hide FoundIds;
    hide PredictionsOk;
    hide AllFound;
    hide AllPredictions;
    hide AggregatesOk;
    hide AllWindowIds;
    var want := ExpectedFolds(rows, a.split);
    forall i | 0 <= i < |a.folds| ensures FoldListed(tools, want[i], a.folds[i]) {
      assert FoldOk(tools, want[i], a.folds[i]);
    }
    AllPredicted(tools, want, a.folds);
    var ids := PredictedIds(AllPredictions(a.folds));
    forall k | 0 <= k < |rows| ensures multiset(ids)[rows[k].id] == if Validated(rows, a.split, k) then 1 else 0 {
      RowInWindow(rows, a.split, k);
      CountOfDistinct(ids, AllWindowIds(want, |want|), rows[k].id);
    }
  }

  lemma CountOfDistinct(ids: seq<EventId>, windows: seq<EventId>, id: EventId)
    requires NoRepeats(ids) && multiset(ids) == multiset(windows)
    ensures multiset(ids)[id] == if id in windows then 1 else 0
  {
    assert id in windows <==> id in multiset(windows);
    assert id in ids <==> id in multiset(ids);
    if id in ids {
      var x :| 0 <= x < |ids| && ids[x] == id;
      Once(ids, x);
    }
  }

  lemma {:induction false} WindowTimes(rows: seq<Row>, split: Split, start: nat, k: nat)
    requires split.Positive() && Fits(|rows|, split, start) && GoodRows(rows)
    requires k < |Validation(rows, split, start)|
    ensures rows[start + split.train].timestamp <= Validation(rows, split, start)[k].timestamp
  {
    if k > 0 {
      assert rows[start + split.train].timestamp <= rows[start + split.train + k].timestamp;
    }
  }

  /** No look-ahead in a passing artifact: every training row of a fold comes from before its window, had its
      outcome realised strictly before every validation timestamp of the fold, and is not predicted in it. */
  lemma TrainingIsPast(tools: Tools, rows: seq<Row>, a: Artifact, i: nat, r: Row, k: nat)
    requires GoodRows(rows) && Passes(tools, rows, a) && i < |a.folds|
    requires var want := ExpectedFolds(rows, a.split);
             |want| == |a.folds| && r in want[i].training && k < |want[i].validation|
    ensures var want := ExpectedFolds(rows, a.split);
            && a.folds[i].trainingIds == Some(Ids(want[i].training))
            && r.realizedEnd < want[i].validation[k].timestamp
            && r.id != want[i].validation[k].id
  {
    hide Training;
    hide ScoresOk;
    hide HeaderOk;
    hide PredictionsOk;
    var want := ExpectedFolds(rows, a.split);
    assert FoldOk(tools, want[i], a.folds[i]);
    StartsShape(rows, a.split, 0);
    var start := Starts(rows, a.split, 0)[i];
    TrainingRealized(rows, a.split, start, r);
    WindowTimes(rows, a.split, start, k);
    ForwardRow(rows, a.split, start, k);
  }

  lemma TrainingRealized(rows: seq<Row>, split: Split, start: nat, r: Row)
    requires split.Positive() && Fits(|rows|, split, start) && r in Training(rows, split, start)
    ensures r in rows[..start + split.train] && r.realizedEnd < rows[start + split.train].timestamp
  {
    RealizedBeforeMeans(rows[..start + split.train], rows[start + split.train].timestamp, r);
  }

  /** A validation row is realised after it, so it cannot be a training row of its own fold. */
  lemma ForwardRow(rows: seq<Row>, split: Split, start: nat, k: nat)
    requires split.Positive() && Fits(|rows|, split, start) && GoodRows(rows) && k < |Validation(rows, split, start)|
    ensures forall r :: r in Training(rows, split, start) ==> r.id != Validation(rows, split, start)[k].id
  {
    hide Training;
    var m := start + split.train + k;
    forall r | r in Training(rows, split, start) ensures r.id != rows[m].id {
      TrainingRealized(rows, split, start, r);
      var j :| 0 <= j < start + split.train && rows[..start + split.train][j] == r;
      assert rows[j] == r && j < m;
    }
  }

  // ---------------------------------------------------------------- the leakage control

  datatype Control = Raises | Corrupted(artifact: Artifact)

  /** Appends the first fold's first predicted event to that fold's training identifiers. */
  function InjectFuture(a: Artifact): Control {
    if a.folds == [] then Raises
    else
      var first := a.folds[0];
      if first.predictions == [] || first.predictions[0].id.None? || first.trainingIds.None? then Raises
      else
        var future := first.predictions[0].id.value;
        if future in first.trainingIds.value then Raises
        else
          Corrupted(a.(folds := a.folds[0 := first.(trainingIds := Some(first.trainingIds.value + [future]))]))
  }

  method RunControl(a: Artifact) returns (r: Control)
    ensures r == InjectFuture(a)
  {
    if |a.folds| == 0 || |a.folds[0].predictions| == 0 {
      return Raises;
    }
    var id := a.folds[0].predictions[0].id;
    if id.None? {
      return Raises;
    }
    var training := a.folds[0].trainingIds;
    if training.None? || id.value in training.value {
      return Raises;
    }
    var corrupted := a.folds[0].(trainingIds := Some(training.value + [id.value]));
    r := Corrupted(a.(folds := [corrupted] + a.folds[1..]));
    assert [corrupted] + a.folds[1..] == a.folds[0 := corrupted];
  }

  lemma IdsMember(rows: seq<Row>, id: EventId)
    requires id in Ids(rows)
    ensures exists r :: r in rows && r.id == id
  {
    var i :| 0 <= i < |Ids(rows)| && Ids(rows)[i] == id;
    assert rows[i] in rows;
  }

  lemma FirstPrediction(tools: Tools, want: Expected, p: Prediction)
    requires PredictionOk(tools, want, p)
    ensures p.id.Some? && exists k :: 0 <= k < |want.validation| && want.validation[k].id == p.id.value
  {
    LookupId(want.validation, p.id);
    var row := Lookup(want.validation, p.id).value;
    var k :| 0 <= k < |want.validation| && want.validation[k] == row;
  }

  /** On every passing artifact with a fold the control does not raise, and the auditor rejects what it emits. */
  lemma LeakageIsRejected(tools: Tools, rows: seq<Row>, a: Artifact)
    requires GoodRows(rows) && Passes(tools, rows, a) && a.folds != []
    ensures InjectFuture(a).Corrupted?
    ensures InjectFuture(a).artifact.split == a.split && !Passes(tools, rows, InjectFuture(a).artifact)
  {
    hide ScoresOk;
    hide HeaderOk;
    hide DetailsOk;
    hide Starts;
    hide ExpectedFolds;
    var want := ExpectedFolds(rows, a.split);
    assert FoldOk(tools, want[0], a.folds[0]);
    var p := a.folds[0].predictions[0];
    assert PredictionOk(tools, want[0], p);
    FirstPrediction(tools, want[0], p);
    var k :| 0 <= k < |want[0].validation| && want[0].validation[k].id == p.id.value;
    if p.id.value in Ids(want[0].training) {
      IdsMember(want[0].training, p.id.value);
      var r :| r in want[0].training && r.id == p.id.value;
      TrainingIsPast(tools, rows, a, 0, r, k);
      assert false;
    }
    var bad := InjectFuture(a).artifact;
    assert bad.folds[0].trainingIds.value == Ids(want[0].training) + [p.id.value];
    assert |bad.folds[0].trainingIds.value| == |Ids(want[0].training)| + 1;
    assert !FoldOk(tools, want[0], bad.folds[0]);
  }

  // ---------------------------------------------------------------- the honest artifact passes

  function HonestPrediction(tools: Tools, want: Expected, row: Row): Prediction
    requires SameDirection(want.training, row.bullish) != []
  {
    Prediction(Some(row.id), row.timestamp, if row.bullish then Up else Down, Label(row),
               Some(tools.round(Rate(SameDirection(want.training, row.bullish)))), true)
  }

  /** Every validation row has a training row of its direction. */
  ghost predicate HasHistory(want: Expected) {
    forall k :: 0 <= k < |want.validation| ==> SameDirection(want.training, want.validation[k].bullish) != []
  }

  ghost function HonestPredictions(tools: Tools, want: Expected): (preds: seq<Prediction>)
    requires HasHistory(want)
    ensures forall j :: 0 <= j < |preds| ==> preds[j].probability.Some?
  {
    seq(|want.validation|, k requires 0 <= k < |want.validation| => HonestPrediction(tools, want, want.validation[k]))
  }

  ghost function HonestFold(tools: Tools, want: Expected): Fold
    requires want.training != [] && want.validation != [] && HasHistory(want)
  {
    var preds := HonestPredictions(tools, want);
    Fold(Some(Ids(want.training)), |want.training|, |want.validation|, want.pool - |want.training|,
         want.training[0].timestamp, want.training[|want.training| - 1].timestamp,
         want.validation[0].timestamp, want.validation[|want.validation| - 1].timestamp,
         tools.round(Rate(want.training)), preds,
         tools.score(Probabilities(preds), Labels(preds)),
         tools.score(seq(|preds|, _ => Rate(want.training)), Labels(preds)))
  }

  /** Rounding keeps probabilities in the unit interval. */
  ghost predicate RoundsInUnit(tools: Tools) {
    forall v :: 0.0 <= v <= 1.0 ==> 0.0 <= tools.round(v) <= 1.0
  }

  lemma {:induction false} RateInUnit(rows: seq<Row>)
    requires rows != []
    ensures 0.0 <= Rate(rows) <= 1.0
  {
    PositivesAtMost(rows);
    UnitQuotient(Positives(rows) as real, |rows| as real);
  }

  lemma {:induction false} PositivesAtMost(rows: seq<Row>)
    ensures Positives(rows) <= |rows|
  {
    if rows != [] {
      PositivesAtMost(rows[..|rows| - 1]);
    }
  }

  ghost predicate DistinctIds(rows: seq<Row>) {
    forall i, j :: 0 <= i < j < |rows| ==> rows[i].id != rows[j].id
  }

  lemma {:induction false} LookupFinds(rows: seq<Row>, k: nat)
    requires k < |rows| && DistinctIds(rows)
    ensures Lookup(rows, Some(rows[k].id)) == Some(rows[k])
  {
    if k < |rows| - 1 {
      LookupFinds(rows[..|rows| - 1], k);
    }
  }

  lemma HonestFoldOk(tools: Tools, want: Expected)
    requires want.training != [] && want.validation != [] && HasHistory(want)
    requires DistinctIds(want.validation) && RoundsInUnit(tools)
    ensures FoldOk(tools, want, HonestFold(tools, want))
  {
    hide Rate;
    hide SameDirection;
    var preds := HonestPredictions(tools, want);
    forall k | 0 <= k < |preds| ensures PredictionOk(tools, want, preds[k]) {
      LookupFinds(want.validation, k);
      RateInUnit(SameDirection(want.training, want.validation[k].bullish));
    }
  }

  ghost function HonestArtifact(tools: Tools, rows: seq<Row>, split: Split): Artifact
    requires split.Positive()
    requires forall i :: 0 <= i < |ExpectedFolds(rows, split)| ==> HasHistory(ExpectedFolds(rows, split)[i])
  {
    var want := ExpectedFolds(rows, split);
    var folds := seq(|want|, i requires 0 <= i < |want| => HonestFold(tools, want[i]));
    HonestProbable(tools, want, folds, |folds|);
    assert folds[..|folds|] == folds;
    var preds := AllPredictions(folds);
    Artifact(0, split, folds, tools.score(Probabilities(preds), Labels(preds)),
             tools.score(AllRates(folds), Labels(preds)))
  }

  lemma {:induction false} HonestProbable(tools: Tools, want: seq<Expected>, folds: seq<Fold>, n: nat)
    requires n <= |folds| == |want|
    requires forall i :: 0 <= i < |want| ==> want[i].training != [] && want[i].validation != [] && HasHistory(want[i])
    requires forall i :: 0 <= i < |want| ==> folds[i] == HonestFold(tools, want[i])
    ensures forall j :: 0 <= j < |AllPredictions(folds[..n])| ==> AllPredictions(folds[..n])[j].probability.Some?
  {
    if n > 0 {
      HonestProbable(tools, want, folds, n - 1);
      assert folds[..n][..n - 1] == folds[..n - 1];
    }
  }

  lemma FoundHonest(tools: Tools, want: Expected)
    requires HasHistory(want) && DistinctIds(want.validation) && RoundsInUnit(tools)
    requires want.training != [] && want.validation != []
    ensures FoundIds(want, HonestPredictions(tools, want)) == Ids(want.validation)
  {
    hide FoundIds;
    HonestFoldOk(tools, want);
    FoundAll(tools, want, HonestPredictions(tools, want));
  }

  ghost predicate Located(rows: seq<Row>, limit: int, x: EventId) {
    exists m :: 0 <= m < limit && m < |rows| && rows[m].id == x
  }

  /** The identifiers found so far sit before `limit` in the source, without repeats. */
  ghost predicate FoundBefore(rows: seq<Row>, ids: seq<EventId>, limit: int) {
    NoRepeats(ids) && forall x :: x in ids ==> Located(rows, limit, x)
  }

  lemma LocatedApart(rows: seq<Row>, limit: int, x: EventId, k: nat)
    requires GoodRows(rows) && Located(rows, limit, x) && limit <= k < |rows|
    ensures rows[k].id != x
  {
  }

  lemma FoundGrows(rows: seq<Row>, ids: seq<EventId>, lo: nat, hi: nat, limit: int)
    requires GoodRows(rows) && limit <= lo <= hi <= |rows| && FoundBefore(rows, ids, limit)
    ensures FoundBefore(rows, ids + Ids(rows[lo..hi]), hi)
  {
    var more := Ids(rows[lo..hi]);
    forall i, j | 0 <= i < |ids| && 0 <= j < |more| ensures ids[i] != more[j] {
      assert ids[i] in ids;
      LocatedApart(rows, limit, ids[i], lo + j);
    }
    forall i, j | 0 <= i < j < |more| ensures more[i] != more[j] {
      assert more[i] == rows[lo + i].id && more[j] == rows[lo + j].id;
    }
    NoRepeatsConcat(ids, more);
    forall x | x in ids + more ensures Located(rows, hi, x) {
      if x in ids {
        assert Located(rows, limit, x);
      } else {
        var j :| 0 <= j < |more| && more[j] == x;
        assert rows[lo + j].id == x;
      }
    }
  }

  ghost predicate InWindows(want: seq<Expected>, n: nat, x: EventId)
    requires n <= |want|
  {
    exists i, k :: 0 <= i < n && 0 <= k < |want[i].validation| && want[i].validation[k].id == x
  }

  ghost function Limit(rows: seq<Row>, split: Split, n: nat): int
    requires split.Positive() && n <= |Starts(rows, split, 0)|
  {
    if n == 0 then 0 else Starts(rows, split, 0)[n - 1] + split.train + split.validation
  }

  lemma LimitStep(rows: seq<Row>, split: Split, n: nat)
    requires split.Positive() && split.validation <= split.step && n < |Starts(rows, split, 0)|
    ensures Fits(|rows|, split, Starts(rows, split, 0)[n])
    ensures Limit(rows, split, n) <= Starts(rows, split, 0)[n] + split.train
    ensures Limit(rows, split, n + 1) == Starts(rows, split, 0)[n] + split.train + split.validation
  {
    StartsShape(rows, split, 0);
  }

  /** What the auditor finds in an honest fold. */
  ghost predicate FindsWindow(tools: Tools, want: Expected, got: Fold) {
    FoundIds(want, got.predictions) == Ids(want.validation)
  }

  lemma HonestFinds(tools: Tools, rows: seq<Row>, split: Split, n: nat)
    requires split.Positive() && GoodRows(rows) && RoundsInUnit(tools)
    requires n < |ExpectedFolds(rows, split)| && HasHistory(ExpectedFolds(rows, split)[n])
    ensures FindsWindow(tools, ExpectedFolds(rows, split)[n], HonestFold(tools, ExpectedFolds(rows, split)[n]))
    ensures FoldOk(tools, ExpectedFolds(rows, split)[n], HonestFold(tools, ExpectedFolds(rows, split)[n]))
  {
    hide FoundIds;
    hide Training;
    StartsShape(rows, split, 0);
    WindowDistinct(rows, split, Starts(rows, split, 0)[n]);
    HonestFoldPredictions(tools, ExpectedFolds(rows, split)[n]);
    FoundHonest(tools, ExpectedFolds(rows, split)[n]);
    HonestFoldOk(tools, ExpectedFolds(rows, split)[n]);
  }

  lemma {:induction false} WindowsFound(tools: Tools, rows: seq<Row>, split: Split, folds: seq<Fold>, n: nat)
    requires split.Positive() && split.validation <= split.step && GoodRows(rows)
    requires n <= |folds| == |ExpectedFolds(rows, split)|
    requires forall i :: 0 <= i < |folds| ==> FindsWindow(tools, ExpectedFolds(rows, split)[i], folds[i])
    ensures FoundBefore(rows, AllFound(ExpectedFolds(rows, split), folds[..n]), Limit(rows, split, n))
    ensures forall x :: x in AllFound(ExpectedFolds(rows, split), folds[..n]) <==>
              InWindows(ExpectedFolds(rows, split), n, x)
  {
    hide FoundIds;
    hide Training;
    hide FoundBefore;
    hide InWindows;
    hide Limit;
    var want := ExpectedFolds(rows, split);
    if n == 0 {
      NothingFound(want, folds, rows, split);
    } else {
      WindowsFound(tools, rows, split, folds, n - 1);
      assert folds[..n][..n - 1] == folds[..n - 1];
      LimitStep(rows, split, n - 1);
      var before := AllFound(want, folds[..n - 1]);
      var lo := Starts(rows, split, 0)[n - 1] + split.train;
      FoundGrows(rows, before, lo, lo + split.validation, Limit(rows, split, n - 1));
      assert FindsWindow(tools, want[n - 1], folds[n - 1]);
      assert AllFound(want, folds[..n]) == before + Ids(want[n - 1].validation);
      FoundMembers(want, before, Ids(want[n - 1].validation), n);
    }
  }

  lemma NothingFound(want: seq<Expected>, folds: seq<Fold>, rows: seq<Row>, split: Split)
    requires split.Positive()
    ensures AllFound(want, folds[..0]) == [] && FoundBefore(rows, AllFound(want, folds[..0]), Limit(rows, split, 0))
    ensures forall x :: !InWindows(want, 0, x)
  {
    assert folds[..0] == [];
  }

  lemma HonestFoldPredictions(tools: Tools, want: Expected)
    requires want.training != [] && want.validation != [] && HasHistory(want)
    ensures HonestFold(tools, want).predictions == HonestPredictions(tools, want)
  {
  }

  lemma WindowDistinct(rows: seq<Row>, split: Split, start: nat)
    requires split.Positive() && GoodRows(rows) && Fits(|rows|, split, start)
    ensures DistinctIds(Validation(rows, split, start))
  {
  }

  lemma FoundMembers(want: seq<Expected>, before: seq<EventId>, last: seq<EventId>, n: nat)
    requires 0 < n <= |want| && last == Ids(want[n - 1].validation)
    requires forall x :: x in before <==> InWindows(want, n - 1, x)
    ensures forall x :: x in before + last <==> InWindows(want, n, x)
  {
    forall x ensures x in before + last <==> InWindows(want, n, x) {
      if x in last {
        var k :| 0 <= k < |last| && last[k] == x;
        assert want[n - 1].validation[k].id == x;
      }
      if InWindows(want, n, x) {
        var i, k :| 0 <= i < n && 0 <= k < |want[i].validation| && want[i].validation[k].id == x;
        assert i == n - 1 ==> last[k] == x;
      }
    }
  }

  /** The auditor does accept: an artifact recomputed from the source passes, when the windows do not
      overlap, no fold is starved and every validation row has history in its direction. */
  lemma HonestPasses(tools: Tools, rows: seq<Row>, split: Split)
    requires split.Positive() && split.validation <= split.step && GoodRows(rows) && RoundsInUnit(tools)
    requires !Starved(rows, split, 0)
    requires forall i :: 0 <= i < |ExpectedFolds(rows, split)| ==> HasHistory(ExpectedFolds(rows, split)[i])
    ensures Passes(tools, rows, HonestArtifact(tools, rows, split))
  {
    hide FoldOk;
    hide Starved;
    hide AllFound;
    hide HonestFold;
    hide HasHistory;
    hide FoundBefore;
    hide FindsWindow;
    hide ExpectedFolds;
    hide Passes;
    var want := ExpectedFolds(rows, split);
    var a := HonestArtifact(tools, rows, split);
    forall i | 0 <= i < |want| ensures FoldOk(tools, want[i], a.folds[i]) && FindsWindow(tools, want[i], a.folds[i]) {
      HonestFinds(tools, rows, split, i);
    }
    WindowsFound(tools, rows, split, a.folds, |a.folds|);
    assert a.folds[..|a.folds|] == a.folds;
    var found := AllFound(want, a.folds);
    BeforeNoRepeats(rows, found, Limit(rows, split, |a.folds|));
    WindowIds(want, found);
    var preds := AllPredictions(a.folds);
    HonestProbable(tools, want, a.folds, |a.folds|);
    CleanVerdict(tools, rows, a, (set id | id in found), Probabilities(preds), Labels(preds), AllRates(a.folds));
  }

  /** Split and source admit a passing artifact: windows do not overlap, no fold is starved and every validation row
      has a training row of its direction. */
  ghost predicate Auditable(rows: seq<Row>, split: Split) {
    && split.Positive() && split.validation <= split.step && !Starved(rows, split, 0)
    && forall i :: 0 <= i < |ExpectedFolds(rows, split)| ==> HasHistory(ExpectedFolds(rows, split)[i])
  }

  lemma PassingFoldHasHistory(tools: Tools, want: Expected, preds: seq<Prediction>, k: nat)
    requires PredictionsOk(tools, want, preds) && k < |want.validation| && DistinctIds(want.validation)
    requires forall j :: 0 <= j < |preds| ==> preds[j].id.Some?
    requires multiset(PredictedIds(preds)) == multiset(Ids(want.validation))
    ensures SameDirection(want.training, want.validation[k].bullish) != []
  {
    hide SameDirection;
    var id := want.validation[k].id;
    assert Ids(want.validation)[k] == id;
    assert id in multiset(Ids(want.validation));
    assert id in PredictedIds(preds);
    var j :| 0 <= j < |preds| && PredictedIds(preds)[j] == id;
    assert PredictionOk(tools, want, preds[j]);
    LookupFinds(want.validation, k);
  }

  lemma PassingHasHistory(tools: Tools, rows: seq<Row>, a: Artifact, i: nat)
    requires GoodRows(rows) && Passes(tools, rows, a) && i < |a.folds|
    ensures |ExpectedFolds(rows, a.split)| == |a.folds| && HasHistory(ExpectedFolds(rows, a.split)[i])
  {
    PredictionsAreWindow(tools, rows, a, i);
    ExpectedDistinct(rows, a.split, i);
    hide PredictedIds;
    hide ScoresOk;
    hide HeaderOk;
    hide PredictionsOk;
    hide ExpectedFolds;
    var want := ExpectedFolds(rows, a.split);
    assert FoldOk(tools, want[i], a.folds[i]);
    forall k | 0 <= k < |want[i].validation|
      ensures SameDirection(want[i].training, want[i].validation[k].bullish) != []
    {
      PassingFoldHasHistory(tools, want[i], a.folds[i].predictions, k);
    }
  }

  lemma ExpectedDistinct(rows: seq<Row>, split: Split, i: nat)
    requires GoodRows(rows) && split.Positive() && i < |ExpectedFolds(rows, split)|
    ensures DistinctIds(ExpectedFolds(rows, split)[i].validation)
  {
    hide Training;
    StartsShape(rows, split, 0);
    WindowDistinct(rows, split, Starts(rows, split, 0)[i]);
  }

  /** Some artifact with this split passes the audit if and only if split and source admit one. */
  lemma SomePassesIff(tools: Tools, rows: seq<Row>, split: Split)
    requires GoodRows(rows) && RoundsInUnit(tools)
    ensures (exists a: Artifact :: a.split == split && Passes(tools, rows, a)) <==> Auditable(rows, split)
  {
    hide HasHistory;
    hide ExpectedFolds;
    if Auditable(rows, split) {
      HonestPasses(tools, rows, split);
      HonestSplit(tools, rows, split);
      assert HonestArtifact(tools, rows, split).split == split;
    }
    if a: Artifact :| a.split == split && Passes(tools, rows, a) {
      forall i | 0 <= i < |ExpectedFolds(rows, split)| ensures HasHistory(ExpectedFolds(rows, split)[i]) {
        PassingHasHistory(tools, rows, a, i);
      }
    }
  }

  lemma HonestSplit(tools: Tools, rows: seq<Row>, split: Split)
    requires Auditable(rows, split)
    ensures HonestArtifact(tools, rows, split).split == split
  {
  }

  lemma WindowIds(want: seq<Expected>, found: seq<EventId>)
    requires forall x :: x in found <==> InWindows(want, |want|, x)
    ensures (set id | id in found) == ValidationIds(want)
  {
    forall x ensures x in found <==> x in ValidationIds(want) {
    }
  }

  lemma BeforeNoRepeats(rows: seq<Row>, ids: seq<EventId>, limit: int)
    requires FoundBefore(rows, ids, limit)
    ensures NoRepeats(ids)
  {
  }
}
