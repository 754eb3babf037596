/** The expanding-window calibration loop of scripts/audit_xauusd_m1_oos_calibration.py. */
module CalibrationRun {
  import opened Common
  import opened Sorting
  import opened Isotonic

  const MIN_SAMPLES: nat := 10

  /** An out-of-sample prediction with its outcome; identifiers and times are ranks. */
  datatype Row = Row(id: int, timestamp: int, probability: real, hit: bool, realizedEnd: int)

  /** The fit in use, how many outcomes it was given, and the row time it was made at. */
  datatype FitInUse = FitInUse(bps: seq<Breakpoint>, trainedOn: int, fitId: int, cutoff: int)

  /** One emitted row of the calibration artifact. */
  datatype Scored = Scored(id: int, timestamp: int, raw: real, calibrated: real, hit: bool,
                           fitId: int, cutoff: int, trainingCount: int)

  datatype RunState = RunState(fit: Option<FitInUse>, scored: seq<Scored>, warmup: nat)

  /** The fitting and lookup routines the loop calls; the loop's own properties hold for any. */
  datatype Tools = Tools(fit: seq<Sample> -> seq<Breakpoint>, predict: (seq<Breakpoint>, real) -> real)

  const START := RunState(None, [], 0)

  predicate RowLeq(a: Row, b: Row) {
    a.timestamp < b.timestamp || (a.timestamp == b.timestamp && a.id <= b.id)
  }

  predicate CompletionLeq(a: Row, b: Row) {
    a.realizedEnd < b.realizedEnd || (a.realizedEnd == b.realizedEnd && a.id <= b.id)
  }

  function Samples(rows: seq<Row>): seq<Sample> {
    seq(|rows|, i requires 0 <= i < |rows| => Sample(rows[i].probability, rows[i].hit))
  }

  predicate HasLabel(rows: seq<Row>, hit: bool) {
    rows != [] && (rows[|rows| - 1].hit == hit || HasLabel(rows[..|rows| - 1], hit))
  }

  /** Enough completed outcomes, of both classes. */
  predicate Ready(prior: seq<Row>) {
    |prior| >= MIN_SAMPLES && HasLabel(prior, true) && HasLabel(prior, false)
  }

  function EffectiveInterval(declared: int): int {
    if declared < 1 then 1 else declared
  }

  // ---------------------------------------------------------------- specification

  /** The rows whose outcome completed strictly before `t`, in completion order. */
  function PriorTo(order: seq<Row>, t: int): seq<Row> {
    if order == [] then []
    else
      var rest := PriorTo(order[..|order| - 1], t);
      if order[|order| - 1].realizedEnd < t then rest + [order[|order| - 1]] else rest
  }

  function NewFit(tools: Tools, prior: seq<Row>, st: RunState, row: Row): FitInUse {
    FitInUse(tools.fit(Samples(prior)), |prior|, if st.fit.None? then 1 else st.fit.value.fitId + 1, row.timestamp)
  }

  predicate ShouldRefit(st: RunState, prior: seq<Row>, interval: int) {
    st.fit.None? || |prior| - st.fit.value.trainedOn >= interval
  }

  function Emit(tools: Tools, fit: FitInUse, row: Row, count: nat): Scored {
    Scored(row.id, row.timestamp, row.probability, tools.predict(fit.bps, row.probability),
           row.hit, fit.fitId, fit.cutoff, count)
  }

  function Step(tools: Tools, st: RunState, prior: seq<Row>, row: Row, interval: int): RunState {
    if !Ready(prior) then st.(warmup := st.warmup + 1)
    else
      var fit := if ShouldRefit(st, prior, interval) then NewFit(tools, prior, st, row) else st.fit.value;
      RunState(Some(fit), st.scored + [Emit(tools, fit, row, |prior|)], st.warmup)
  }

  /** The first k rows of the chronological list, each given the outcomes completed before it. */
  function RunUpTo(tools: Tools, preds: seq<Row>, order: seq<Row>, k: nat, interval: int): RunState
    requires k <= |preds|
  {
    if k == 0 then START
    else Step(tools, RunUpTo(tools, preds, order, k - 1, interval),
              PriorTo(order, preds[k - 1].timestamp), preds[k - 1], interval)
  }

  function CalibrateWith(tools: Tools, rows: seq<Row>, declared: int): RunState {
    SortPermutes(RowLeq, rows);
    RunUpTo(tools, Sort(RowLeq, rows), Sort(CompletionLeq, rows), |rows|, EffectiveInterval(declared))
  }

  // ---------------------------------------------------------------- orders and prefixes

  ghost predicate InTimeOrder(rows: seq<Row>) {
    forall i, j :: 0 <= i < j < |rows| ==> rows[i].timestamp <= rows[j].timestamp
  }

  ghost predicate InCompletionOrder(rows: seq<Row>) {
    forall i, j :: 0 <= i < j < |rows| ==> rows[i].realizedEnd <= rows[j].realizedEnd
  }

  lemma Ordered(rows: seq<Row>)
    ensures InTimeOrder(Sort(RowLeq, rows)) && InCompletionOrder(Sort(CompletionLeq, rows))
    ensures |Sort(RowLeq, rows)| == |rows|
  {
    SortPermutes(RowLeq, rows);
    assert TotalPreorder(RowLeq) && TotalPreorder(CompletionLeq);
    SortSorts(RowLeq, rows);
    SortSorts(CompletionLeq, rows);
    var p, o := Sort(RowLeq, rows), Sort(CompletionLeq, rows);
    assert forall i, j :: 0 <= i < j < |p| ==> RowLeq(p[i], p[j]);
    assert forall i, j :: 0 <= i < j < |o| ==> CompletionLeq(o[i], o[j]);
  }

  /** Where every earlier end is before `t` and every later one is not, the filter is a prefix. */
  lemma {:induction false} PriorIsPrefix(order: seq<Row>, c: nat, t: int)
    requires c <= |order|
    requires forall i :: 0 <= i < c ==> order[i].realizedEnd < t
    requires forall i :: c <= i < |order| ==> order[i].realizedEnd >= t
    ensures PriorTo(order, t) == order[..c]
  {
    if order != [] {
      var n := |order| - 1;
      if c == |order| {
        PriorIsPrefix(order[..n], n, t);
        assert order[..n][..n] + [order[n]] == order;
      } else {
        PriorIsPrefix(order[..n], c, t);
        assert order[..n][..c] == order[..c];
      }
    }
  }

  // ---------------------------------------------------------------- the loop

  method RunCalibration(tools: Tools, rows: seq<Row>, declared: int) returns (final: RunState)
    ensures final == CalibrateWith(tools, rows, declared)
  {
    hide Sort;
    hide Step;
    hide PriorTo;
    var interval := EffectiveInterval(declared);
    var predictions := Sort(RowLeq, rows);
    var completionOrder := Sort(CompletionLeq, rows);
    Ordered(rows);

    var completionCursor := 0;
    var eligible: seq<Row> := [];
    var st := START;
    for k := 0 to |predictions|
      invariant 0 <= completionCursor <= |completionOrder|
      invariant eligible == completionOrder[..completionCursor]
      invariant forall i :: k <= i < |predictions| ==>
                  forall j :: 0 <= j < completionCursor ==> completionOrder[j].realizedEnd < predictions[i].timestamp
      invariant st == RunUpTo(tools, predictions, completionOrder, k, interval)
    {
      var row := predictions[k];
      while completionCursor < |completionOrder|
        invariant 0 <= completionCursor <= |completionOrder|
        invariant eligible == completionOrder[..completionCursor]
        invariant forall j :: 0 <= j < completionCursor ==> completionOrder[j].realizedEnd < row.timestamp
      {
        var completed := completionOrder[completionCursor];
        if completed.realizedEnd >= row.timestamp {
          break;
        }
        eligible := eligible + [completed];
        completionCursor := completionCursor + 1;
      }
      assert forall j :: completionCursor <= j < |completionOrder| ==> completionOrder[j].realizedEnd >= row.timestamp;
      PriorIsPrefix(completionOrder, completionCursor, row.timestamp);
      st := Step(tools, st, eligible, row, interval);
    }
    final := st;
  }

  // ---------------------------------------------------------------- what is eligible

  lemma {:induction false} PriorMembers(order: seq<Row>, t: int, r: Row)
    ensures multiset(PriorTo(order, t))[r] == if r.realizedEnd < t then multiset(order)[r] else 0
  {
    if order != [] {
      var n := |order| - 1;
      PriorMembers(order[..n], t, r);
      assert order == order[..n] + [order[n]];
    }
  }

  /** At a row of time t the training pool holds each row exactly as often as the input does
      when its outcome was realised strictly before t, and no other row. */
  lemma EligibleExactly(rows: seq<Row>, t: int, r: Row)
    ensures multiset(PriorTo(Sort(CompletionLeq, rows), t))[r] == if r.realizedEnd < t then multiset(rows)[r] else 0
  {
    PriorMembers(Sort(CompletionLeq, rows), t, r);
    SortPermutes(CompletionLeq, rows);
  }

  lemma {:induction false} PriorGrows(order: seq<Row>, t: int, u: int)
    requires InCompletionOrder(order) && t <= u
    ensures PriorTo(order, t) <= PriorTo(order, u)
  {
    if order != [] {
      var n := |order| - 1;
      PriorGrows(order[..n], t, u);
      if order[n].realizedEnd < t {
        PriorIsPrefix(order, |order|, t);
        PriorIsPrefix(order, |order|, u);
      }
    }
  }

  lemma {:induction false} LabelPersists(a: seq<Row>, b: seq<Row>, hit: bool)
    requires a <= b && HasLabel(a, hit)
    ensures HasLabel(b, hit)
  {
    if |a| < |b| {
      LabelPersists(a, b[..|b| - 1], hit);
    } else {
      assert a == b;
    }
  }

  lemma ReadyPersists(order: seq<Row>, t: int, u: int)
    requires InCompletionOrder(order) && t <= u
    requires Ready(PriorTo(order, t))
    ensures Ready(PriorTo(order, u))
  {
    PriorGrows(order, t, u);
    LabelPersists(PriorTo(order, t), PriorTo(order, u), true);
    LabelPersists(PriorTo(order, t), PriorTo(order, u), false);
  }

  /** The recursive class test is membership of a row with that label. */
  lemma {:induction false} HasLabelMeans(rows: seq<Row>, hit: bool)
    ensures HasLabel(rows, hit) <==> exists r :: r in rows && r.hit == hit
  {
    if rows != [] {
      var n := |rows| - 1;
      HasLabelMeans(rows[..n], hit);
      assert rows == rows[..n] + [rows[n]];
    }
  }

  // ---------------------------------------------------------------- the shape of a run

  ghost predicate Chronological(preds: seq<Row>, order: seq<Row>) {
    InTimeOrder(preds) && InCompletionOrder(order)
  }

  /** What one emitted row says, against the data it may use. */
  ghost predicate Justified(tools: Tools, e: Scored, row: Row, order: seq<Row>, interval: int) {
    && e.id == row.id && e.timestamp == row.timestamp && e.raw == row.probability && e.hit == row.hit
    && e.cutoff <= row.timestamp && Ready(PriorTo(order, e.cutoff))
    && e.trainingCount == |PriorTo(order, row.timestamp)|
    && 0 <= e.trainingCount - |PriorTo(order, e.cutoff)| < interval
    && e.calibrated == tools.predict(tools.fit(Samples(PriorTo(order, e.cutoff))), row.probability)
  }

  /** The fit in use is the fit of what was completed before its cutoff. */
  ghost predicate FitMatches(tools: Tools, f: FitInUse, order: seq<Row>, now: int) {
    && f.bps == tools.fit(Samples(PriorTo(order, f.cutoff)))
    && f.trainedOn == |PriorTo(order, f.cutoff)|
    && f.cutoff <= now && Ready(PriorTo(order, f.cutoff))
  }

  /** The rows that lack completed outcomes are the first w. */
  ghost predicate WarmupIsPrefix(w: nat, preds: seq<Row>, order: seq<Row>) {
    forall i :: 0 <= i < |preds| ==> (Ready(PriorTo(order, preds[i].timestamp)) <==> w <= i)
  }

  ghost predicate AllJustified(tools: Tools, scored: seq<Scored>, rows: seq<Row>, order: seq<Row>, interval: int) {
    |scored| == |rows| && forall i :: 0 <= i < |rows| ==> Justified(tools, scored[i], rows[i], order, interval)
  }

  ghost predicate RunInvariant(tools: Tools, st: RunState, preds: seq<Row>, order: seq<Row>, k: nat, interval: int)
    requires k <= |preds|
  {
    && st.warmup + |st.scored| == k
    && WarmupIsPrefix(st.warmup, preds[..k], order)
    && AllJustified(tools, st.scored, preds[st.warmup..k], order, interval)
    && (st.fit.Some? ==> k > 0 && FitMatches(tools, st.fit.value, order, preds[k - 1].timestamp))
  }

  lemma StepJustified(tools: Tools, st: RunState, order: seq<Row>, row: Row, interval: int)
    requires InCompletionOrder(order) && interval >= 1
    requires st.fit.Some? ==> FitMatches(tools, st.fit.value, order, row.timestamp)
    requires Ready(PriorTo(order, row.timestamp))
    ensures var r := Step(tools, st, PriorTo(order, row.timestamp), row, interval);
            && r.fit.Some? && FitMatches(tools, r.fit.value, order, row.timestamp)
            && r.warmup == st.warmup && |r.scored| == |st.scored| + 1 && st.scored <= r.scored
            && Justified(tools, r.scored[|st.scored|], row, order, interval)
  {
    if st.fit.Some? {
      PriorGrows(order, st.fit.value.cutoff, row.timestamp);
    }
  }

  /** Once a row has been scored, every later row is. */
  lemma NoSecondWarmup(tools: Tools, st: RunState, preds: seq<Row>, order: seq<Row>, k: nat, interval: int)
    requires k < |preds| && Chronological(preds, order) && RunInvariant(tools, st, preds, order, k, interval)
    ensures Ready(PriorTo(order, preds[k].timestamp)) || st.warmup == k
  {
    if st.warmup < k {
      assert preds[..k][k - 1] == preds[k - 1];
      ReadyPersists(order, preds[k - 1].timestamp, preds[k].timestamp);
    }
  }

  lemma JustifiedSnoc(tools: Tools,
                      scored: seq<Scored>, rows: seq<Row>, e: Scored, row: Row, order: seq<Row>, interval: int)
    requires AllJustified(tools, scored, rows, order, interval) && Justified(tools, e, row, order, interval)
    ensures AllJustified(tools, scored + [e], rows + [row], order, interval)
  {
  }

  lemma WarmupSnoc(w: nat, preds: seq<Row>, row: Row, order: seq<Row>)
    requires WarmupIsPrefix(w, preds, order)
    requires Ready(PriorTo(order, row.timestamp)) <==> w <= |preds|
    ensures WarmupIsPrefix(w, preds + [row], order)
  {
  }

  lemma ReadyStepKeepsInvariant(tools: Tools, st: RunState, preds: seq<Row>, order: seq<Row>, k: nat, interval: int)
    requires k < |preds| && InCompletionOrder(order) && interval >= 1
    requires k > 0 ==> preds[k - 1].timestamp <= preds[k].timestamp
    requires RunInvariant(tools, st, preds, order, k, interval)
    requires Ready(PriorTo(order, preds[k].timestamp))
    ensures RunInvariant(tools, Step(tools, st, PriorTo(order, preds[k].timestamp), preds[k], interval),
                         preds, order, k + 1, interval)
  {
    StepJustified(tools, st, order, preds[k], interval);
    var r := Step(tools, st, PriorTo(order, preds[k].timestamp), preds[k], interval);
    SliceSnoc(preds, st.warmup, k);
    WarmupSnoc(st.warmup, preds[..k], preds[k], order);
    assert r.scored == st.scored + [r.scored[|st.scored|]];
    JustifiedSnoc(tools, st.scored, preds[st.warmup..k], r.scored[|st.scored|], preds[k], order, interval);
  }

  lemma {:induction false} RunKeepsInvariant(tools: Tools, preds: seq<Row>, order: seq<Row>, k: nat, interval: int)
    requires k <= |preds| && Chronological(preds, order) && interval >= 1
    ensures RunInvariant(tools, RunUpTo(tools, preds, order, k, interval), preds, order, k, interval)
  {
    hide RunInvariant;
    hide Step;
    hide Chronological;
    hide PriorTo;
    hide InCompletionOrder;
    hide Ready;
    if k == 0 {
      NothingRun(tools, preds, order, interval);
    } else {
      RunKeepsInvariant(tools, preds, order, k - 1, interval);
      var st := RunUpTo(tools, preds, order, k - 1, interval);
      ChronologicalAt(preds, order, k - 1);
      if Ready(PriorTo(order, preds[k - 1].timestamp)) {
        ReadyStepKeepsInvariant(tools, st, preds, order, k - 1, interval);
      } else {
        WarmupStepKeepsInvariant(tools, st, preds, order, k - 1, interval);
      }
    }
  }

  lemma ChronologicalAt(preds: seq<Row>, order: seq<Row>, k: nat)
    requires Chronological(preds, order) && k < |preds|
    ensures InCompletionOrder(order) && (k > 0 ==> preds[k - 1].timestamp <= preds[k].timestamp)
  {
  }

  lemma NothingRun(tools: Tools, preds: seq<Row>, order: seq<Row>, interval: int)
    ensures RunInvariant(tools, START, preds, order, 0, interval)
  {
  }

  lemma WarmupStepKeepsInvariant(tools: Tools, st: RunState, preds: seq<Row>, order: seq<Row>, k: nat, interval: int)
    requires k < |preds| && Chronological(preds, order) && RunInvariant(tools, st, preds, order, k, interval)
    requires !Ready(PriorTo(order, preds[k].timestamp))
    ensures RunInvariant(tools, Step(tools, st, PriorTo(order, preds[k].timestamp), preds[k], interval), preds, order,
              k + 1, interval)
  {
    hide Ready;
    hide PriorTo;
    NoSecondWarmup(tools, st, preds, order, k, interval);
    assert preds[..k + 1] == preds[..k] + [preds[k]];
  }

  /** A whole run: the rows skipped for warm-up are exactly a prefix of the chronological list, every
      later row is emitted once and in order, and each emitted probability is the lookup in the fit of
      the outcomes completed before its cutoff, which misses fewer than the refit interval of those
      completed before the row. */
  lemma WholeRun(tools: Tools, rows: seq<Row>, declared: int)
    ensures var r := CalibrateWith(tools, rows, declared);
            var preds := Sort(RowLeq, rows);
            var order := Sort(CompletionLeq, rows);
            && |preds| == |rows| && r.warmup + |r.scored| == |rows|
            && WarmupIsPrefix(r.warmup, preds, order)
            && AllJustified(tools, r.scored, preds[r.warmup..], order, EffectiveInterval(declared))
  {
    Ordered(rows);
    var preds := Sort(RowLeq, rows);
    RunKeepsInvariant(tools, preds, Sort(CompletionLeq, rows), |rows|, EffectiveInterval(declared));
    assert preds[..|rows|] == preds;
  }

  // ---------------------------------------------------------------- causality

  /** Same row, except that a label realised at or after `t` may differ. */
  ghost function SameBefore(t: int): (Row, Row) -> bool {
    (a: Row, b: Row) => a.(hit := b.hit) == b && (a.realizedEnd < t ==> a.hit == b.hit)
  }

  lemma OrdersIgnoreLabels(t: int)
    ensures Respects(SameBefore(t), RowLeq) && Respects(SameBefore(t), CompletionLeq)
  {
    forall a, b, c, d | SameBefore(t)(a, c) && SameBefore(t)(b, d)
      ensures RowLeq(a, b) == RowLeq(c, d) && CompletionLeq(a, b) == CompletionLeq(c, d)
    {
    }
  }

  ghost predicate SameButLabel(a: Scored, b: Scored) {
    a.(hit := b.hit) == b
  }

  ghost predicate SameSoFar(a: RunState, b: RunState) {
    && a.fit == b.fit && a.warmup == b.warmup && |a.scored| == |b.scored|
    && forall i :: 0 <= i < |a.scored| ==> SameButLabel(a.scored[i], b.scored[i])
  }

  lemma {:induction false} PriorUnaffected(order: seq<Row>, order': seq<Row>, t: int, u: int)
    requires Corresponds(SameBefore(t), order, order') && u <= t
    ensures PriorTo(order, u) == PriorTo(order', u)
  {
    if order != [] {
      var n := |order| - 1;
      assert SameBefore(t)(order[n], order'[n]);
      PriorUnaffected(order[..n], order'[..n], t, u);
    }
  }

  lemma StepUnaffected(tools: Tools, a: RunState, b: RunState, prior: seq<Row>, row: Row, row': Row, interval: int)
    requires SameSoFar(a, b) && row.(hit := row'.hit) == row'
    ensures SameSoFar(Step(tools, a, prior, row, interval), Step(tools, b, prior, row', interval))
  {
    if Ready(prior) {
      var fit := if ShouldRefit(a, prior, interval) then NewFit(tools, prior, a, row) else a.fit.value;
      assert SameButLabel(Emit(tools, fit, row, |prior|), Emit(tools, fit, row', |prior|));
    }
  }

  lemma {:induction false} RunUnaffected(
    tools: Tools, preds: seq<Row>, preds': seq<Row>, order: seq<Row>, order': seq<Row>, k: nat, interval: int, t: int)
    requires Corresponds(SameBefore(t), preds, preds') && Corresponds(SameBefore(t), order, order')
    requires k <= |preds| && forall i :: 0 <= i < k ==> preds[i].timestamp <= t
    ensures SameSoFar(RunUpTo(tools, preds, order, k, interval), RunUpTo(tools, preds', order', k, interval))
  {
    hide Step;
    hide PriorTo;
    if k > 0 {
      RunUnaffected(tools, preds, preds', order, order', k - 1, interval, t);
      assert SameBefore(t)(preds[k - 1], preds'[k - 1]);
      PriorUnaffected(order, order', t, preds[k - 1].timestamp);
      StepUnaffected(tools, RunUpTo(tools, preds, order, k - 1, interval),
        RunUpTo(tools, preds', order', k - 1, interval),
                     PriorTo(order, preds[k - 1].timestamp), preds[k - 1], preds'[k - 1], interval);
    }
  }

  lemma {:induction false} RunExtends(tools: Tools, preds: seq<Row>, order: seq<Row>, k: nat, l: nat, interval: int)
    requires k <= l <= |preds|
    ensures RunUpTo(tools, preds, order, k, interval).scored <= RunUpTo(tools, preds, order, l, interval).scored
    ensures RunUpTo(tools, preds, order, k, interval).warmup <= RunUpTo(tools, preds, order, l, interval).warmup
    decreases l
  {
    if k < l {
      RunExtends(tools, preds, order, k, l - 1, interval);
    }
  }

  lemma EarlierRows(preds: seq<Row>, k: nat, t: int)
    requires 0 < k <= |preds| && InTimeOrder(preds) && preds[k - 1].timestamp <= t
    ensures forall j :: 0 <= j < k ==> preds[j].timestamp <= t
  {
  }

  lemma CausalAt(tools: Tools, preds: seq<Row>, preds': seq<Row>, order: seq<Row>, order': seq<Row>,
                 interval: int, t: int, i: nat, k: nat)
    requires Corresponds(SameBefore(t), preds, preds') && Corresponds(SameBefore(t), order, order')
    requires k <= |preds| && forall j :: 0 <= j < k ==> preds[j].timestamp <= t
    requires i < |RunUpTo(tools, preds, order, k, interval).scored|
    ensures var r := RunUpTo(tools, preds, order, |preds|, interval);
            var r' := RunUpTo(tools, preds', order', |preds'|, interval);
            i < |r.scored| && i < |r'.scored| && SameButLabel(r.scored[i], r'.scored[i])
  {
    hide RunUpTo;
    RunUnaffected(tools, preds, preds', order, order', k, interval, t);
    RunExtends(tools, preds, order, k, |preds|, interval);
    RunExtends(tools, preds', order', k, |preds'|, interval);
  }

  lemma RunIsCausal(tools: Tools, preds: seq<Row>, preds': seq<Row>, order: seq<Row>, order': seq<Row>,
                    interval: int, t: int, i: nat)
    requires Corresponds(SameBefore(t), preds, preds') && Corresponds(SameBefore(t), order, order')
    requires InTimeOrder(preds)
    requires var r := RunUpTo(tools, preds, order, |preds|, interval);
             i < |r.scored| && r.scored[i].timestamp <= t
    ensures var r := RunUpTo(tools, preds, order, |preds|, interval);
            var r' := RunUpTo(tools, preds', order', |preds'|, interval);
            i < |r'.scored| && SameButLabel(r.scored[i], r'.scored[i])
  {
    var k := EmittedAt(tools, preds, order, |preds|, interval, i);
    RunExtends(tools, preds, order, k, |preds|, interval);
    EarlierRows(preds, k, t);
    CausalAt(tools, preds, preds', order, order', interval, t, i, k);
  }

  /** The row count at which the i-th emitted row appeared. */
  lemma {:induction false} EmittedAt(tools: Tools, preds: seq<Row>, order: seq<Row>, n: nat, interval: int, i: nat)
    returns (k: nat)
    requires n <= |preds| && i < |RunUpTo(tools, preds, order, n, interval).scored|
    ensures 0 < k <= n
    ensures |RunUpTo(tools, preds, order, k, interval).scored| == i + 1
    ensures RunUpTo(tools, preds, order, k, interval).scored[i].timestamp == preds[k - 1].timestamp
  {
    if i < |RunUpTo(tools, preds, order, n - 1, interval).scored| {
      k := EmittedAt(tools, preds, order, n - 1, interval, i);
    } else {
      k := n;
    }
  }

  /** No look-ahead: change any labels realised at or after time t, and every row emitted at or before
      t keeps its calibrated probability, fit id, cutoff and training count. */
  lemma CalibrationIsCausal(tools: Tools, rows: seq<Row>, rows': seq<Row>, declared: int, t: int, i: nat)
    requires Corresponds(SameBefore(t), rows, rows')
    requires i < |CalibrateWith(tools, rows, declared).scored|
               && CalibrateWith(tools, rows, declared).scored[i].timestamp <= t
    ensures i < |CalibrateWith(tools, rows', declared).scored|
    ensures SameButLabel(CalibrateWith(tools, rows, declared).scored[i],
              CalibrateWith(tools, rows', declared).scored[i])
  {
    OrdersIgnoreLabels(t);
    SortCorresponds(SameBefore(t), RowLeq, rows, rows');
    SortCorresponds(SameBefore(t), CompletionLeq, rows, rows');
    Ordered(rows);
    Ordered(rows');
    RunIsCausal(tools, Sort(RowLeq, rows), Sort(RowLeq, rows'), Sort(CompletionLeq, rows), Sort(CompletionLeq, rows'),
                EffectiveInterval(declared), t, i);
  }
}
