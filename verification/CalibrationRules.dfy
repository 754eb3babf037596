/** The rules of the calibration run, written out: when a row is skipped, when the fit is kept, and the lookup. */
module CalibrationRules {
  import opened Common
  import opened Sorting
  import opened Isotonic
  import opened CalibrationRun

  /** Rows are taken by time and then by identifier, outcomes by completion and then by identifier. */
  lemma RowOrder(rows: seq<Row>, i: nat, j: nat)
    requires i < j < |rows|
    ensures |Sort(RowLeq, rows)| == |rows| && |Sort(CompletionLeq, rows)| == |rows|
    ensures var a, b := Sort(RowLeq, rows)[i], Sort(RowLeq, rows)[j];
            a.timestamp < b.timestamp || (a.timestamp == b.timestamp && a.id <= b.id)
    ensures var a, b := Sort(CompletionLeq, rows)[i], Sort(CompletionLeq, rows)[j];
            a.realizedEnd < b.realizedEnd || (a.realizedEnd == b.realizedEnd && a.id <= b.id)
  {
    hide Sort;
    SortPermutes(RowLeq, rows);
    SortPermutes(CompletionLeq, rows);
    assert TotalPreorder(RowLeq) && TotalPreorder(CompletionLeq);
    SortSorts(RowLeq, rows);
    SortSorts(CompletionLeq, rows);
    assert RowLeq(Sort(RowLeq, rows)[i], Sort(RowLeq, rows)[j]);
    assert CompletionLeq(Sort(CompletionLeq, rows)[i], Sort(CompletionLeq, rows)[j]);
  }

  /** A row is skipped if and only if fewer than ten outcomes, or no positive or no negative one, completed before
      it. */
  lemma SkippedIff(tools: Tools, rows: seq<Row>, declared: int, i: nat)
    requires i < |rows|
    ensures |Sort(RowLeq, rows)| == |rows|
    ensures var prior := PriorTo(Sort(CompletionLeq, rows), Sort(RowLeq, rows)[i].timestamp);
            i < CalibrateWith(tools, rows, declared).warmup <==>
              || |prior| < 10
              || (forall k :: 0 <= k < |prior| ==> !prior[k].hit)
              || (forall k :: 0 <= k < |prior| ==> prior[k].hit)
  {
    hide Sort;
    hide PriorTo;
    hide CalibrateWith;
    hide HasLabel;
    WholeRun(tools, rows, declared);
    var prior := PriorTo(Sort(CompletionLeq, rows), Sort(RowLeq, rows)[i].timestamp);
    LabelIndex(prior, true);
    LabelIndex(prior, false);
  }

  lemma LabelIndex(rows: seq<Row>, hit: bool)
    ensures HasLabel(rows, hit) <==> exists k :: 0 <= k < |rows| && rows[k].hit == hit
  {
    HasLabelMeans(rows, hit);
    hide HasLabel;
    if k :| 0 <= k < |rows| && rows[k].hit == hit {
      assert rows[k] in rows;
    }
  }

  // ---------------------------------------------------------------- when the fit is kept

  /** The fit of the last emitted row, and nothing before the first. */
  ghost predicate FitIsLast(st: RunState, order: seq<Row>) {
    && (st.scored == [] <==> st.fit.None?)
    && (st.fit.Some? ==>
          && st.fit.value.fitId == st.scored[|st.scored| - 1].fitId
          && st.fit.value.cutoff == st.scored[|st.scored| - 1].cutoff
          && st.fit.value.trainedOn == |PriorTo(order, st.fit.value.cutoff)|)
  }

  /** Row i against the row emitted before it: the fit is kept while fewer than `interval` further outcomes have
      completed since its cutoff, and is otherwise made anew at the row's own time with the next number. */
  ghost predicate FitRule(scored: seq<Scored>, order: seq<Row>, interval: int, i: nat)
    requires i < |scored|
  {
    var e := scored[i];
    if i == 0 then e.fitId == 1 && e.cutoff == e.timestamp
    else
      var before := scored[i - 1];
      if |PriorTo(order, e.timestamp)| - |PriorTo(order, before.cutoff)| < interval
      then e.fitId == before.fitId && e.cutoff == before.cutoff
      else e.fitId == before.fitId + 1 && e.cutoff == e.timestamp
  }

  lemma StepKeepsRule(tools: Tools, st: RunState, order: seq<Row>, row: Row, interval: int)
    requires FitIsLast(st, order)
    ensures var r := Step(tools, st, PriorTo(order, row.timestamp), row, interval);
            && FitIsLast(r, order)
            && (r.scored == st.scored
                || (|r.scored| == |st.scored| + 1 && st.scored <= r.scored
                    && FitRule(r.scored, order, interval, |st.scored|)))
  {
    hide PriorTo;
    hide HasLabel;
  }

  lemma RulePrefix(a: seq<Scored>, b: seq<Scored>, order: seq<Row>, interval: int, i: nat)
    requires a <= b && i < |a| && FitRule(a, order, interval, i)
    ensures FitRule(b, order, interval, i)
  {
    hide PriorTo;
  }

  lemma {:induction false} RunKeepsRule(tools: Tools, preds: seq<Row>, order: seq<Row>, k: nat, interval: int)
    requires k <= |preds|
    ensures var st := RunUpTo(tools, preds, order, k, interval);
            FitIsLast(st, order) && forall i :: 0 <= i < |st.scored| ==> FitRule(st.scored, order, interval, i)
  {
    hide Step;
    hide PriorTo;
    hide FitRule;
    if k > 0 {
      RunKeepsRule(tools, preds, order, k - 1, interval);
      var st := RunUpTo(tools, preds, order, k - 1, interval);
      StepKeepsRule(tools, st, order, preds[k - 1], interval);
      var r := RunUpTo(tools, preds, order, k, interval);
      forall i | 0 <= i < |r.scored| ensures FitRule(r.scored, order, interval, i) {
        if i < |st.scored| {
          RulePrefix(st.scored, r.scored, order, interval, i);
        }
      }
    }
  }

  /** Of every run, the rule at every emitted row, with the declared interval or 1 if that is smaller. */
  lemma RefitRule(tools: Tools, rows: seq<Row>, declared: int, i: nat)
    requires i < |CalibrateWith(tools, rows, declared).scored|
    ensures var scored, order := CalibrateWith(tools, rows, declared).scored, Sort(CompletionLeq, rows);
            var e := scored[i];
            && (i == 0 ==> e.fitId == 1 && e.cutoff == e.timestamp)
            && (i > 0 ==>
                  var before := scored[i - 1];
                  var further := |PriorTo(order, e.timestamp)| - |PriorTo(order, before.cutoff)|;
                  if further < 1 || further < declared
                  then e.fitId == before.fitId && e.cutoff == before.cutoff
                  else e.fitId == before.fitId + 1 && e.cutoff == e.timestamp)
  {
    hide Sort;
    hide RunUpTo;
    hide PriorTo;
    SortPermutes(RowLeq, rows);
    RunKeepsRule(tools, Sort(RowLeq, rows), Sort(CompletionLeq, rows), |rows|, EffectiveInterval(declared));
    var scored := CalibrateWith(tools, rows, declared).scored;
    assert FitRule(scored, Sort(CompletionLeq, rows), EffectiveInterval(declared), i);
  }

  // ---------------------------------------------------------------- what an emitted row says

  /** Every emitted row copies its source row, counts the outcomes completed before it, and is the lookup in the fit
      of the outcomes completed before its cutoff. */
  lemma EmittedRow(tools: Tools, rows: seq<Row>, declared: int, i: nat)
    requires i < |CalibrateWith(tools, rows, declared).scored|
    ensures var r := CalibrateWith(tools, rows, declared);
            var preds, order := Sort(RowLeq, rows), Sort(CompletionLeq, rows);
            && r.warmup + i < |preds|
            && var e, row := r.scored[i], preds[r.warmup + i];
               var training := PriorTo(order, e.cutoff);
               && e.id == row.id && e.timestamp == row.timestamp && e.raw == row.probability && e.hit == row.hit
               && e.trainingCount == |PriorTo(order, row.timestamp)|
               && e.calibrated
                  == tools.predict(tools.fit(seq(|training|, (k: int) requires 0 <= k < |training| =>
                                               Sample(training[k].probability, training[k].hit))), row.probability)
  {
    hide Sort;
    hide PriorTo;
    hide CalibrateWith;
    WholeRun(tools, rows, declared);
    var r := CalibrateWith(tools, rows, declared);
    var preds, order := Sort(RowLeq, rows), Sort(CompletionLeq, rows);
    assert Justified(tools, r.scored[i], preds[r.warmup..][i], order, EffectiveInterval(declared));
    var training := PriorTo(order, r.scored[i].cutoff);
    assert Samples(training)
        == seq(|training|, (k: int) requires 0 <= k < |training| => Sample(training[k].probability, training[k].hit));
  }

  // ---------------------------------------------------------------- the lookup

  ghost predicate Rising(bps: seq<Breakpoint>) {
    forall i, j :: 0 <= i < j < |bps| ==> bps[i].0 < bps[j].0
  }

  lemma {:induction false} SplitsAt(bps: seq<Breakpoint>, p: real)
    requires Rising(bps)
    ensures var n := BisectRight(bps, p);
            && (forall k :: 0 <= k < n ==> bps[k].0 <= p) && (forall k :: n <= k < |bps| ==> p < bps[k].0)
  {
    if bps != [] && bps[|bps| - 1].0 > p {
      SplitsAt(bps[..|bps| - 1], p);
    }
  }

  /** The lookup on ascending breakpoints: the first value below the first abscissa, the last value from the last
      abscissa on, and in between the value of the interval that holds p. */
  lemma LookupRule(bps: seq<Breakpoint>, p: real)
    requires bps != [] && Rising(bps)
    ensures p < bps[0].0 ==> Predict(bps, p) == bps[0].1
    ensures bps[|bps| - 1].0 <= p ==> Predict(bps, p) == bps[|bps| - 1].1
    ensures forall k :: 0 <= k < |bps| - 1 && bps[k].0 <= p < bps[k + 1].0 ==> Predict(bps, p) == bps[k].1
  {
    SplitsAt(bps, p);
    hide BisectRight;
  }
}
