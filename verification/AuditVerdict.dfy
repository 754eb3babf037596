/** What the auditor checks in a walk-forward artifact, and the control that corrupts one. */
module AuditVerdict {
  import opened Common
  import opened FoldAudit

  /** A score is whatever the scoring function returns; only equality matters. */
  type Score = int

  datatype Direction = Up | Down | Other

  datatype Prediction = Prediction(id: Option<EventId>, timestamp: Time, direction: Direction, label01: int,
                                   probability: Option<real>, methodOk: bool)

  datatype Fold = Fold(trainingIds: Option<seq<EventId>>, trainEvents: int, validationEvents: int, embargoed: int,
                       trainStart: Time, trainEnd: Time, validationStart: Time, validationEnd: Time, rate: real,
                       predictions: seq<Prediction>, model: Score, baseline: Score)

  /** `metadataFailures` counts the identity and contract checks that failed. */
  datatype Artifact = Artifact(metadataFailures: nat, split: Split, folds: seq<Fold>,
                               aggregateModel: Score, aggregateBaseline: Score)

  /** Rounding to twelve digits and the scoring of probabilities against labels, not interpreted. */
  datatype Tools = Tools(round: real -> real, score: (seq<real>, seq<int>) -> Score)

  datatype Failure =
    | Metadata | SplitSizes | OverlappingWindows | StarvedFold | FoldCount | Membership(fold: nat) | Header(fold: nat)
    | PredictionCount(fold: nat) | BadPrediction(fold: nat) | Reused(fold: nat) | FoldScore(fold: nat)
    | Coverage | AggregateScore

  // ---------------------------------------------------------------- small functions

  function Label(r: Row): int { if r.hit then 1 else 0 }

  function Ids(rows: seq<Row>): seq<EventId> {
    seq(|rows|, i requires 0 <= i < |rows| => rows[i].id)
  }

  function Positives(rows: seq<Row>): nat {
    if rows == [] then 0 else Positives(rows[..|rows| - 1]) + if rows[|rows| - 1].hit then 1 else 0
  }

  function Rate(rows: seq<Row>): real
    requires rows != []
  {
    Positives(rows) as real / |rows| as real
  }

  function SameDirection(rows: seq<Row>, bullish: bool): seq<Row> {
    if rows == [] then []
    else
      var rest := SameDirection(rows[..|rows| - 1], bullish);
      if rows[|rows| - 1].bullish == bullish then rest + [rows[|rows| - 1]] else rest
  }

  /** `source_by_id.get`: the row of the window with this identifier. */
  function Lookup(rows: seq<Row>, id: Option<EventId>): Option<Row> {
    if rows == [] || id.None? then None
    else if rows[|rows| - 1].id == id.value then Some(rows[|rows| - 1])
    else Lookup(rows[..|rows| - 1], id)
  }

  // ---------------------------------------------------------------- one fold

  predicate HeaderOk(tools: Tools, want: Expected, got: Fold)
    requires want.training != [] && want.validation != []
  {
    && got.trainEvents == |want.training| && got.validationEvents == |want.validation|
    && got.embargoed == want.pool - |want.training|
    && got.trainStart == want.training[0].timestamp && got.trainEnd == want.training[|want.training| - 1].timestamp
    && got.validationStart == want.validation[0].timestamp
    && got.validationEnd == want.validation[|want.validation| - 1].timestamp
    && got.rate == tools.round(Rate(want.training))
  }

  /** Checks of a prediction against its source row and the training rows of its direction. */
  predicate DetailsOk(tools: Tools, want: Expected, row: Row, p: Prediction) {
    var history := SameDirection(want.training, row.bullish);
    && p.timestamp == row.timestamp && p.direction == (if row.bullish then Up else Down) && p.label01 == Label(row)
    && p.probability.Some? && 0.0 <= p.probability.value <= 1.0
    && history != [] && p.probability.value == tools.round(Rate(history)) && p.methodOk
  }

  predicate PredictionOk(tools: Tools, want: Expected, p: Prediction) {
    var row := Lookup(want.validation, p.id);
    row.Some? && DetailsOk(tools, want, row.value, p)
  }

  ghost predicate PredictionsOk(tools: Tools, want: Expected, preds: seq<Prediction>) {
    forall j :: 0 <= j < |preds| ==> PredictionOk(tools, want, preds[j])
  }

  /** The identifiers of predictions found in the window, in order. */
  function FoundIds(want: Expected, preds: seq<Prediction>): seq<EventId> {
    if preds == [] then []
    else
      var rest := FoundIds(want, preds[..|preds| - 1]);
      if Lookup(want.validation, preds[|preds| - 1].id).Some? && preds[|preds| - 1].id.Some?
      then rest + [preds[|preds| - 1].id.value] else rest
  }

  function Probabilities(preds: seq<Prediction>): seq<real>
    requires forall j :: 0 <= j < |preds| ==> preds[j].probability.Some?
  {
    seq(|preds|, j requires 0 <= j < |preds| => preds[j].probability.value)
  }

  function Labels(preds: seq<Prediction>): seq<int> {
    seq(|preds|, j requires 0 <= j < |preds| => preds[j].label01)
  }

  ghost predicate ScoresOk(tools: Tools, want: Expected, got: Fold)
    requires want.training != [] && PredictionsOk(tools, want, got.predictions)
  {
    && got.model == tools.score(Probabilities(got.predictions), Labels(got.predictions))
    && got.baseline == tools.score(seq(|got.predictions|, _ => Rate(want.training)), Labels(got.predictions))
  }

  /** A fold without any failure of its own. */
  ghost predicate FoldOk(tools: Tools, want: Expected, got: Fold)
    requires want.training != [] && want.validation != []
  {
    && got.trainingIds == Some(Ids(want.training))
    && HeaderOk(tools, want, got)
    && |got.predictions| == |want.validation|
    && PredictionsOk(tools, want, got.predictions)
    && ScoresOk(tools, want, got)
  }

  // ---------------------------------------------------------------- the whole artifact

  ghost function AllFound(want: seq<Expected>, folds: seq<Fold>): seq<EventId>
    requires |folds| <= |want|
  {
    if folds == [] then []
    else
      var n := |folds| - 1;
      AllFound(want, folds[..n]) + FoundIds(want[n], folds[n].predictions)
  }

  ghost function ValidationIds(want: seq<Expected>): set<EventId> {
    set i, k | 0 <= i < |want| && 0 <= k < |want[i].validation| :: want[i].validation[k].id
  }

  ghost function AllPredictions(folds: seq<Fold>): seq<Prediction> {
    if folds == [] then [] else AllPredictions(folds[..|folds| - 1]) + folds[|folds| - 1].predictions
  }

  ghost function AllRates(folds: seq<Fold>): seq<real> {
    if folds == [] then []
    else AllRates(folds[..|folds| - 1]) + seq(|folds[|folds| - 1].predictions|, _ => folds[|folds| - 1].rate)
  }

  ghost predicate AggregatesOk(tools: Tools, a: Artifact)
    requires forall j :: 0 <= j < |AllPredictions(a.folds)| ==> AllPredictions(a.folds)[j].probability.Some?
  {
    var preds := AllPredictions(a.folds);
    preds != [] ==>
      && a.aggregateModel == tools.score(Probabilities(preds), Labels(preds))
      && a.aggregateBaseline == tools.score(AllRates(a.folds), Labels(preds))
  }

  ghost predicate FoldsOk(tools: Tools, want: seq<Expected>, folds: seq<Fold>)
    requires forall i :: 0 <= i < |want| ==> want[i].training != [] && want[i].validation != []
  {
    |folds| == |want| && forall i :: 0 <= i < |want| ==> FoldOk(tools, want[i], folds[i])
  }

  /** The verdict PASS, stated on the artifact. */
  ghost predicate Passes(tools: Tools, rows: seq<Row>, a: Artifact) {
    && a.metadataFailures == 0
    && a.split.Positive() && a.split.validation <= a.split.step
    && !Starved(rows, a.split, 0)
    && var want := ExpectedFolds(rows, a.split);
       && FoldsOk(tools, want, a.folds)
       && NoRepeats(AllFound(want, a.folds))
       && (set id | id in AllFound(want, a.folds)) == ValidationIds(want)
       && (AllProbable(tools, want, a.folds, |a.folds|); AggregatesOk(tools, a))
  }

  lemma {:induction false} AllProbable(tools: Tools, want: seq<Expected>, folds: seq<Fold>, n: nat)
    requires forall i :: 0 <= i < |want| ==> want[i].training != [] && want[i].validation != []
    requires n <= |folds| <= |want| && forall i :: 0 <= i < n ==> PredictionsOk(tools, want[i], folds[i].predictions)
    ensures forall j :: 0 <= j < |AllPredictions(folds[..n])| ==> AllPredictions(folds[..n])[j].probability.Some?
    ensures n == |folds| ==> folds[..n] == folds
  {
    if n > 0 {
      AllProbable(tools, want, folds, n - 1);
      assert folds[..n][..n - 1] == folds[..n - 1];
      forall p | p in folds[n - 1].predictions ensures p.probability.Some? {
        var j :| 0 <= j < |folds[n - 1].predictions| && folds[n - 1].predictions[j] == p;
        assert PredictionOk(tools, want[n - 1], folds[n - 1].predictions[j]);
      }
    }
  }

  // ---------------------------------------------------------------- the audit

  lemma {:induction false} LookupId(rows: seq<Row>, id: Option<EventId>)
    ensures Lookup(rows, id).Some? ==>
              id.Some? && Lookup(rows, id).value in rows && Lookup(rows, id).value.id == id.value
    ensures Lookup(rows, id).None? && id.Some? ==> forall k :: 0 <= k < |rows| ==> rows[k].id != id.value
  {
    if rows != [] && id.Some? && rows[|rows| - 1].id != id.value {
      LookupId(rows[..|rows| - 1], id);
    }
  }

  lemma NoRepeatsConcat(a: seq<EventId>, b: seq<EventId>)
    ensures NoRepeats(a + b) <==>
              NoRepeats(a) && NoRepeats(b) && forall i, j :: 0 <= i < |a| && 0 <= j < |b| ==> a[i] != b[j]
  {
    var c := a + b;
    if NoRepeats(c) {
      forall i, j | 0 <= i < j < |a| ensures a[i] != a[j] { assert c[i] == a[i] && c[j] == a[j]; }
      forall i, j | 0 <= i < j < |b| ensures b[i] != b[j] { assert c[|a| + i] == b[i] && c[|a| + j] == b[j]; }
      forall i, j | 0 <= i < |a| && 0 <= j < |b| ensures a[i] != b[j] { assert c[i] == a[i] && c[|a| + j] == b[j]; }
    }
  }

  lemma NoRepeatsSnoc(a: seq<EventId>, x: EventId)
    ensures NoRepeats(a + [x]) <==> NoRepeats(a) && x !in a
  {
    NoRepeatsConcat(a, [x]);
    assert NoRepeats([x]) && [x][0] == x;
    if x in a {
      var i :| 0 <= i < |a| && a[i] == x;
      assert a[i] == [x][0];
    }
  }

  /** The checks of one prediction list: membership in the window, reuse, and the details. */
  method AuditPredictions(tools: Tools, want: Expected, preds: seq<Prediction>, fold: nat, before: set<EventId>)
    returns (failures: seq<Failure>, seen: set<EventId>, probs: seq<real>, labels: seq<int>)
    requires want.training != []
    ensures failures == [] <==>
              && PredictionsOk(tools, want, preds) && NoRepeats(FoundIds(want, preds))
              && forall id :: id in FoundIds(want, preds) ==> id !in before
    ensures failures == [] ==> seen == before + (set id | id in FoundIds(want, preds))
    ensures failures == [] ==>
              && (forall j :: 0 <= j < |preds| ==> preds[j].probability.Some?)
              && probs == Probabilities(preds) && labels == Labels(preds)
  {
    hide DetailsOk;
    failures, seen, probs, labels := [], before, [], [];
    for j := 0 to |preds|
      invariant failures == [] <==>
                  && PredictionsOk(tools, want, preds[..j]) && NoRepeats(FoundIds(want, preds[..j]))
                  && forall id :: id in FoundIds(want, preds[..j]) ==> id !in before
      invariant failures == [] ==> seen == before + (set id | id in FoundIds(want, preds[..j]))
      invariant failures == [] ==>
                  && (forall k :: 0 <= k < j ==> preds[k].probability.Some?)
                  && probs == Probabilities(preds[..j]) && labels == Labels(preds[..j])
    {
      var p := preds[j];
      ghost var found := FoundIds(want, preds[..j]);
      ghost var clean := failures == [];
      assert preds[..j + 1][..j] == preds[..j] && preds[..j + 1][j] == p;
      assert PredictionsOk(tools, want, preds[..j + 1]) <==>
        PredictionsOk(tools, want, preds[..j]) && PredictionOk(tools, want, p) by {
        PredictionsSnoc(tools, want, preds, j);
      }
      var row := Lookup(want.validation, p.id);
      LookupId(want.validation, p.id);
      if row.None? {
        failures := failures + [BadPrediction(fold)];
        continue;
      }
      NoRepeatsSnoc(found, p.id.value);
      if p.id.value in seen {
        failures := failures + [Reused(fold)];
      }
      seen := seen + {p.id.value};
      DetailsProbable(tools, want, row.value, p);
      if !DetailsOk(tools, want, row.value, p) {
        failures := failures + [BadPrediction(fold)];
      }
      if p.probability.Some? {
        probs := probs + [p.probability.value];
        labels := labels + [p.label01];
      }
    }
    assert preds[..|preds|] == preds;
  }

  lemma DetailsProbable(tools: Tools, want: Expected, row: Row, p: Prediction)
    ensures DetailsOk(tools, want, row, p) ==> p.probability.Some?
  {
  }

  lemma PredictionsSnoc(tools: Tools, want: Expected, preds: seq<Prediction>, j: nat)
    requires j < |preds|
    ensures PredictionsOk(tools, want, preds[..j + 1]) <==>
              PredictionsOk(tools, want, preds[..j]) && PredictionOk(tools, want, preds[j])
  {
    hide PredictionOk;
    if PredictionsOk(tools, want, preds[..j + 1]) {
      forall k | 0 <= k < j ensures PredictionOk(tools, want, preds[..j][k]) {
        assert preds[..j][k] == preds[..j + 1][k];
      }
      assert preds[..j + 1][j] == preds[j];
    }
    if PredictionsOk(tools, want, preds[..j]) && PredictionOk(tools, want, preds[j]) {
      var more := preds[..j + 1];
      forall k | 0 <= k < |more| ensures PredictionOk(tools, want, more[k]) {
        assert k < j ==> more[k] == preds[..j][k];
      }
    }
  }

  method AuditFold(tools: Tools, want: Expected, got: Fold, fold: nat, before: set<EventId>)
    returns (failures: seq<Failure>, seen: set<EventId>, probs: seq<real>, labels: seq<int>)
    requires want.training != [] && want.validation != []
    ensures failures == [] <==>
              && FoldOk(tools, want, got) && NoRepeats(FoundIds(want, got.predictions))
              && forall id :: id in FoundIds(want, got.predictions) ==> id !in before
    ensures failures == [] ==> seen == before + (set id | id in FoundIds(want, got.predictions))
    ensures failures == [] ==>
              && (forall j :: 0 <= j < |got.predictions| ==> got.predictions[j].probability.Some?)
              && probs == Probabilities(got.predictions) && labels == Labels(got.predictions)
  {
    hide HeaderOk;
    hide PredictionOk;
    hide FoundIds;
    failures := [];
    if got.trainingIds != Some(Ids(want.training)) {
      failures := failures + [Membership(fold)];
    }
    if !HeaderOk(tools, want, got) {
      failures := failures + [Header(fold)];
    }
    if |got.predictions| != |want.validation| {
      failures := failures + [PredictionCount(fold)];
    }
    var more;
    more, seen, probs, labels := AuditPredictions(tools, want, got.predictions, fold, before);
    failures := failures + more;
    if |probs| == |want.validation| {
      var baseline := seq(|probs|, _ => Rate(want.training));
      assert failures == [] ==> baseline == seq(|got.predictions|, _ => Rate(want.training));
      if got.model != tools.score(probs, labels) || got.baseline != tools.score(baseline, labels) {
        failures := failures + [FoldScore(fold)];
      }
    }
  }

  /** `want` is what the fold loop found in place of the expected folds. */
  ghost predicate HeadOk(rows: seq<Row>, a: Artifact, want: seq<Expected>) {
    && a.metadataFailures == 0 && a.split.Positive() && a.split.validation <= a.split.step
    && !Starved(rows, a.split, 0) && |a.folds| == |want|
  }

  /** What the fold loop has established after n folds. */
  ghost predicate CleanUpTo(tools: Tools, want: seq<Expected>, folds: seq<Fold>, n: nat)
    requires n <= |folds| && n <= |want|
    requires forall i :: 0 <= i < |want| ==> want[i].training != [] && want[i].validation != []
  {
    && (forall i :: 0 <= i < n ==> FoldOk(tools, want[i], folds[i]))
    && NoRepeats(AllFound(want, folds[..n]))
  }

  lemma {:induction false} CleanStep(tools: Tools, want: seq<Expected>, folds: seq<Fold>, n: nat)
    requires n < |folds| && n < |want|
    requires forall i :: 0 <= i < |want| ==> want[i].training != [] && want[i].validation != []
    ensures AllFound(want, folds[..n + 1]) == AllFound(want, folds[..n]) + FoundIds(want[n], folds[n].predictions)
    ensures CleanUpTo(tools, want, folds, n + 1) <==>
              && CleanUpTo(tools, want, folds, n) && FoldOk(tools, want[n], folds[n])
              && NoRepeats(FoundIds(want[n], folds[n].predictions))
              && forall id :: id in FoundIds(want[n], folds[n].predictions) ==> id !in AllFound(want, folds[..n])
  {
    hide FoldOk;
    hide FoundIds;
    assert folds[..n + 1][..n] == folds[..n];
    var a, b := AllFound(want, folds[..n]), FoundIds(want[n], folds[n].predictions);
    NoRepeatsConcat(a, b);
    if forall id :: id in b ==> id !in a {
      forall i, j | 0 <= i < |a| && 0 <= j < |b| ensures a[i] != b[j] { assert b[j] in b; }
    }
  }

  lemma NothingChecked(tools: Tools, want: seq<Expected>, folds: seq<Fold>)
    requires forall i :: 0 <= i < |want| ==> want[i].training != [] && want[i].validation != []
    ensures CleanUpTo(tools, want, folds, 0) && AllFound(want, folds[..0]) == []
    ensures AllPredictions(folds[..0]) == [] && AllRates(folds[..0]) == [] && Probabilities([]) == []
              && Labels([]) == []
  {
    assert folds[..0] == [];
  }

  lemma AccumulatedStep(folds: seq<Fold>, n: nat)
    requires n < |folds|
    ensures AllPredictions(folds[..n + 1]) == AllPredictions(folds[..n]) + folds[n].predictions
    ensures AllRates(folds[..n + 1]) == AllRates(folds[..n]) + seq(|folds[n].predictions|, _ => folds[n].rate)
  {
    assert folds[..n + 1][..n] == folds[..n];
  }

  lemma ProbabilitiesConcat(a: seq<Prediction>, b: seq<Prediction>)
    requires forall j :: 0 <= j < |a| ==> a[j].probability.Some?
    requires forall j :: 0 <= j < |b| ==> b[j].probability.Some?
    ensures forall j :: 0 <= j < |a + b| ==> (a + b)[j].probability.Some?
    ensures Probabilities(a + b) == Probabilities(a) + Probabilities(b)
    ensures Labels(a + b) == Labels(a) + Labels(b)
  {
  }

  /** The auditor returns its failures, raises on an empty window, or never leaves its fold loop. */
  datatype Verdict = Judged(failures: seq<Failure>) | Raised | NeverReturns

  /** The auditor, on any artifact: it passes exactly when the artifact satisfies every check, raises exactly when
      the fold loop does, and never returns exactly when the step is 0 and the first round finds a fold. */
  method Audit(tools: Tools, rows: seq<Row>, a: Artifact) returns (verdict: Verdict)
    ensures verdict == Judged([]) <==> Passes(tools, rows, a)
    ensures verdict.Raised? <==> Walk(rows, a.split, 0).IndexError?
    ensures verdict.NeverReturns? <==> a.split.step == 0 && VisitAt(rows, a.split, 0).Window?
  {
    hide Walk;
    hide VisitAt;
    hide ExpectedFolds;
    hide Passes;
    hide HeadOk;
    var failures: seq<Failure> := [];
    if a.metadataFailures > 0 {
      failures := failures + [Metadata];
    }
    if !a.split.Positive() {
      failures := failures + [SplitSizes];
    }
    if a.split.step < a.split.validation {
      failures := failures + [OverlappingWindows];
    }
    var outcome := Reconstruct(rows, a.split);
    NeverEndsIff(rows, a.split);
    WalkFits(tools, rows, a);
    if outcome.IndexError? {
      return Raised;
    }
    if outcome.Forever? {
      return NeverReturns;
    }
    var want := outcome.found;
    if outcome.starved {
      failures := failures + [StarvedFold];
    }
    if |a.folds| != |want| {
      failures := failures + [FoldCount];
    }
    HeadMeans(rows, a, want, outcome.starved);
    failures := AuditFolds(tools, rows, a, want, failures);
    verdict := Judged(failures);
  }

  lemma WalkFits(tools: Tools, rows: seq<Row>, a: Artifact)
    ensures var r := Walk(rows, a.split, 0);
            && (a.split.Positive() ==> r == Folds(ExpectedFolds(rows, a.split), Starved(rows, a.split, 0)))
            && (r.Folds? ==>
                  forall i :: 0 <= i < |r.found| ==> r.found[i].training != [] && r.found[i].validation != [])
            && (Passes(tools, rows, a) ==> a.split.Positive())
  {
    hide Walk;
    hide Starved;
    if a.split.Positive() {
      WalkPositive(rows, a.split, 0);
    }
    if Walk(rows, a.split, 0).Folds? {
      WalkFoldsFilled(rows, a.split, 0);
    }
  }

  lemma HeadMeans(rows: seq<Row>, a: Artifact, want: seq<Expected>, starved: bool)
    requires a.split.Positive() ==> starved == Starved(rows, a.split, 0)
    ensures HeadOk(rows, a, want) <==>
              && a.metadataFailures == 0 && a.split.Positive() && a.split.validation <= a.split.step
              && !starved && |a.folds| == |want|
  {
    hide Starved;
  }

  /** The checks after the fold loop, added to the failures recorded before. */
  method AuditFolds(tools: Tools, rows: seq<Row>, a: Artifact, want: seq<Expected>, before: seq<Failure>)
    returns (failures: seq<Failure>)
    requires forall i :: 0 <= i < |want| ==> want[i].training != [] && want[i].validation != []
    requires a.split.Positive() ==> want == ExpectedFolds(rows, a.split)
    requires before == [] <==> HeadOk(rows, a, want)
    ensures failures == [] <==> Passes(tools, rows, a)
  {
    hide FoldOk;
    hide Starved;
    hide Starts;
    hide FoundIds;
    hide ExpectedFolds;
    hide Passes;
    hide CleanUpTo;
    hide AllFound;
    hide AllPredictions;
    hide AllRates;
    hide Probabilities;
    hide Labels;
    failures := before;
    var seen: set<EventId> := {};
    var probs: seq<real> := [];
    var labels: seq<int> := [];
    var rates: seq<real> := [];
    var i := 0;
    NothingChecked(tools, want, a.folds);
    while i < |want| && i < |a.folds|
      invariant 0 <= i <= |want| && i <= |a.folds|
      invariant failures == [] <==> HeadOk(rows, a, want) && CleanUpTo(tools, want, a.folds, i)
      invariant failures == [] ==> seen == set id | id in AllFound(want, a.folds[..i])
      invariant failures == [] ==>
                  && (forall j :: 0 <= j < |AllPredictions(a.folds[..i])| ==>
                        AllPredictions(a.folds[..i])[j].probability.Some?)
                  && probs == Probabilities(AllPredictions(a.folds[..i]))
                  && labels == Labels(AllPredictions(a.folds[..i]))
                  && rates == AllRates(a.folds[..i])
    {
      var more, after, foldProbs, foldLabels := AuditFold(tools, want[i], a.folds[i], i, seen);
      CleanStep(tools, want, a.folds, i);
      AccumulatedStep(a.folds, i);
      if failures == [] && more == [] {
        ProbabilitiesConcat(AllPredictions(a.folds[..i]), a.folds[i].predictions);
      }
      failures := failures + more;
      seen := after;
      probs, labels := probs + foldProbs, labels + foldLabels;
      rates := rates + seq(|a.folds[i].predictions|, _ => a.folds[i].rate);
      i := i + 1;
    }
    assert failures == [] ==> a.folds[..i] == a.folds;
    ghost var clean := failures == [];
    var covered := set f, k | 0 <= f < |want| && 0 <= k < |want[f].validation| :: want[f].validation[k].id;
    if seen != covered {
      failures := failures + [Coverage];
    }
    if probs != []
       && (a.aggregateModel != tools.score(probs, labels) || a.aggregateBaseline != tools.score(rates, labels)) {
      failures := failures + [AggregateScore];
    }
    if clean {
      CleanVerdict(tools, rows, a, seen, probs, labels, rates);
    } else {
      UncleanVerdict(tools, rows, a, want, i);
    }
  }

  lemma {:induction false} CleanVerdict(tools: Tools, rows: seq<Row>, a: Artifact, seen: set<EventId>,
                                        probs: seq<real>, labels: seq<int>, rates: seq<real>)
    requires a.split.Positive() && HeadOk(rows, a, ExpectedFolds(rows, a.split))
    requires CleanUpTo(tools, ExpectedFolds(rows, a.split), a.folds, |a.folds|)
    requires seen == set id | id in AllFound(ExpectedFolds(rows, a.split), a.folds)
    requires forall j :: 0 <= j < |AllPredictions(a.folds)| ==> AllPredictions(a.folds)[j].probability.Some?
    requires probs == Probabilities(AllPredictions(a.folds)) && labels == Labels(AllPredictions(a.folds))
               && rates == AllRates(a.folds)
    ensures Passes(tools, rows, a) <==>
              && seen == ValidationIds(ExpectedFolds(rows, a.split))
              && (probs != [] ==>
                    a.aggregateModel == tools.score(probs, labels) && a.aggregateBaseline == tools.score(rates, labels))
  {
    hide FoldOk;
    hide FoundIds;
    hide Starved;
    hide ExpectedFolds;
    assert a.folds[..|a.folds|] == a.folds;
  }

  lemma {:induction false} UncleanVerdict(tools: Tools, rows: seq<Row>, a: Artifact, want: seq<Expected>, n: nat)
    requires forall i :: 0 <= i < |want| ==> want[i].training != [] && want[i].validation != []
    requires a.split.Positive() ==> want == ExpectedFolds(rows, a.split)
    requires n <= |a.folds| && n <= |want| && (n == |a.folds| || n == |want|)
    requires !(HeadOk(rows, a, want) && CleanUpTo(tools, want, a.folds, n))
    ensures !Passes(tools, rows, a)
  {
    hide FoldOk;
    hide FoundIds;
    hide Starved;
    hide ExpectedFolds;
    if |a.folds| == |want| {
      assert a.folds[..n] == a.folds;
    }
  }
}
