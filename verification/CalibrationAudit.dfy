/** The calibration loop run with the isotonic fit it is shipped with. */
module CalibrationAudit {
  import opened Sorting
  import opened Isotonic
  import opened IsotonicTheorems
  import opened CalibrationRun

  /** `_pava` and `_predict`; the lookup is never reached without breakpoints. */
  const ISOTONIC := Tools(Fit, (bps: seq<Breakpoint>, p: real) => if bps == [] then 0.0 else Predict(bps, p))

  /** Every emitted probability is the optimal non-decreasing calibration map of the outcomes that had
      completed strictly before the fit's cutoff, and the cutoff is not after the row. */
  lemma EmittedByOptimalMap(rows: seq<Row>, declared: int, i: nat)
    requires i < |CalibrateWith(ISOTONIC, rows, declared).scored|
    ensures var e := CalibrateWith(ISOTONIC, rows, declared).scored[i];
            var training := Samples(PriorTo(Sort(CompletionLeq, rows), e.cutoff));
            && e.cutoff <= e.timestamp && training != []
            && e.calibrated == Calibrator(training)(e.raw)
            && 0.0 <= e.calibrated <= 1.0
  {
    var r := CalibrateWith(ISOTONIC, rows, declared);
    var preds, order := Sort(RowLeq, rows), Sort(CompletionLeq, rows);
    WholeRun(ISOTONIC, rows, declared);
    var e := r.scored[i];
    assert Justified(ISOTONIC, e, preds[r.warmup..][i], order, EffectiveInterval(declared));
    var training := Samples(PriorTo(order, e.cutoff));
    FitShape(training);
    assert e.calibrated == Predict(Fit(training), e.raw);
  }
}
