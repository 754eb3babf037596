/** The properties of the fit stated on the rows it was given. */
module IsotonicTheorems {
  import opened Arithmetic
  import opened Sorting
  import opened Isotonic
  import opened IsotonicProofs

  // ---------------------------------------------------------------- from rows to groups

  lemma SampleLeqIsTotal()
    ensures TotalPreorder(SampleLeq)
  {
  }

  ghost function GroupsOf(samples: seq<Sample>): (gs: seq<Block>)
    ensures AllValid(gs)
  {
    Grouped(Sort(SampleLeq, samples))
  }

  lemma AbsorbAscending(gs: seq<Block>, s: Sample)
    requires Ascending(gs) && (gs != [] ==> gs[|gs| - 1].x <= s.x)
    ensures Ascending(Absorb(gs, s)) && Absorb(gs, s) != [] && Absorb(gs, s)[|Absorb(gs, s)| - 1].x == s.x
  {
  }

  /** Grouping rows in ascending order gives strictly ascending abscissae. */
  lemma {:induction false} GroupedAscending(samples: seq<Sample>)
    requires SortedBy(SampleLeq, samples)
    ensures Ascending(Grouped(samples))
    ensures samples != [] ==>
              Grouped(samples) != [] && Grouped(samples)[|Grouped(samples)| - 1].x == samples[|samples| - 1].x
  {
    if samples != [] {
      var n := |samples| - 1;
      GroupedAscending(samples[..n]);
      if n > 0 {
        assert SampleLeq(samples[n - 1], samples[n]);
      }
      AbsorbAscending(Grouped(samples[..n]), samples[n]);
    }
  }

  lemma GroupsAscend(samples: seq<Sample>)
    ensures Ascending(GroupsOf(samples))
    ensures samples != [] ==> GroupsOf(samples) != []
  {
    SampleLeqIsTotal();
    SortSorts(SampleLeq, samples);
    SortPermutes(SampleLeq, samples);
    GroupedAscending(Sort(SampleLeq, samples));
  }

  /** A per-row term that a per-group term adds up. */
  ghost predicate AddsUp(t: Sample -> real, g: Block -> real) {
    && (forall s: Sample :: g(Block(s.x, 1, s.Label())) == t(s))
    && (forall s: Sample, b: Block {:trigger Grown(b, s)} :: b.x == s.x ==> g(Grown(b, s)) == g(b) + t(s))
  }

  lemma {:induction false} GroupedTotal(t: Sample -> real, g: Block -> real, samples: seq<Sample>)
    requires AddsUp(t, g)
    ensures Total(g, Grouped(samples)) == Sum(t, samples)
  {
    if samples != [] {
      var n := |samples| - 1;
      var s := samples[n];
      GroupedTotal(t, g, samples[..n]);
      SumSnoc(t, samples[..n], s);
      assert samples == samples[..n] + [s];
      var before := Grouped(samples[..n]);
      var after := Absorb(before, s);
      var m := |after| - 1;
      if before != [] && before[|before| - 1].x == s.x {
        assert after[..m] == before[..m];
        assert g(after[m]) == g(before[m]) + t(s);
      } else {
        assert after[..m] == before;
      }
    }
  }

  lemma GroupsTotal(t: Sample -> real, g: Block -> real, samples: seq<Sample>)
    requires AddsUp(t, g)
    ensures Total(g, GroupsOf(samples)) == Sum(t, samples)
  {
    GroupedTotal(t, g, Sort(SampleLeq, samples));
    SortSum(t, SampleLeq, samples);
  }

  /** The groups' abscissae are exactly the distinct probabilities of the rows. */
  lemma {:induction false} GroupedCovers(samples: seq<Sample>)
    ensures (set g | g in Grouped(samples) :: g.x) == (set s | s in samples :: s.x)
  {
    if samples != [] {
      var n := |samples| - 1;
      GroupedCovers(samples[..n]);
      var before := Grouped(samples[..n]);
      AbsorbCovers(before, samples[n]);
      assert samples == samples[..n] + [samples[n]];
      assert (set s | s in samples :: s.x) == (set s | s in samples[..n] :: s.x) + {samples[n].x};
    }
  }

  lemma AbsorbCovers(gs: seq<Block>, s: Sample)
    ensures (set g | g in Absorb(gs, s) :: g.x) == (set g | g in gs :: g.x) + {s.x}
  {
    var after := Absorb(gs, s);
    assert after[|after| - 1].x == s.x;
    if |after| == |gs| {
      var m := |gs| - 1;
      assert gs == gs[..m] + [gs[m]] && after == gs[..m] + [Grown(gs[m], s)];
      assert (set g | g in after :: g.x) == (set g | g in gs[..m] :: g.x) + {s.x};
      assert (set g | g in gs :: g.x) == (set g | g in gs[..m] :: g.x) + {s.x};
    } else {
      assert after == gs + [Block(s.x, 1, s.Label())];
    }
  }

  // ---------------------------------------------------------------- per-row terms

  ghost function SquaredError(f: real -> real): Sample -> real {
    (s: Sample) => Square(f(s.x) - s.Label() as real)
  }

  ghost function SquaredGap(f: real -> real, h: real -> real): Sample -> real {
    (s: Sample) => Square(f(s.x) - h(s.x))
  }

  ghost function Value(f: real -> real): Sample -> real {
    (s: Sample) => f(s.x)
  }

  ghost function Hit(): Sample -> real {
    (s: Sample) => s.Label() as real
  }

  lemma GroupErrorGrows(b: Block, y: nat, v: real)
    requires y <= 1
    ensures GroupError(Block(b.x, b.count + 1, b.positives + y), v) == GroupError(b, v) + Square(v - y as real)
  {
    Distribute(Square(v), b.count as real, 1.0);
    Distribute(v, b.positives as real, y as real);
    assert Square(v - 1.0) == Square(v) - 2.0 * v + 1.0;
  }

  lemma ErrorTermsAddUp(f: real -> real)
    ensures AddsUp(SquaredError(f), ErrorTerm(f))
  {
    forall s: Sample, b: Block | b.x == s.x
      ensures ErrorTerm(f)(Grown(b, s)) == ErrorTerm(f)(b) + SquaredError(f)(s)
    {
      GroupErrorGrows(b, s.Label(), f(s.x));
    }
    forall s: Sample ensures ErrorTerm(f)(Block(s.x, 1, s.Label())) == SquaredError(f)(s) {
      GroupErrorGrows(Block(s.x, 0, 0), s.Label(), f(s.x));
    }
  }

  lemma GapTermsAddUp(f: real -> real, h: real -> real)
    ensures AddsUp(SquaredGap(f, h), DistanceTerm(f, h))
  {
    forall s: Sample, b: Block | b.x == s.x
      ensures DistanceTerm(f, h)(Grown(b, s)) == DistanceTerm(f, h)(b) + SquaredGap(f, h)(s)
    {
      Distribute(Square(f(s.x) - h(s.x)), b.count as real, 1.0);
    }
    forall s: Sample ensures DistanceTerm(f, h)(Block(s.x, 1, s.Label())) == SquaredGap(f, h)(s) {
      Distribute(Square(f(s.x) - h(s.x)), 0.0, 1.0);
    }
  }

  ghost function ValueTerm(f: real -> real): Block -> real {
    (g: Block) => f(g.x) * g.count as real
  }

  ghost function PositiveTerm(): Block -> real {
    (g: Block) => g.positives as real
  }

  lemma ValueTermsAddUp(f: real -> real)
    ensures AddsUp(Value(f), ValueTerm(f)) && AddsUp(Hit(), PositiveTerm())
  {
    forall s: Sample, b: Block | b.x == s.x
      ensures ValueTerm(f)(Grown(b, s)) == ValueTerm(f)(b) + Value(f)(s)
    {
      Distribute(f(s.x), b.count as real, 1.0);
    }
  }

  // ---------------------------------------------------------------- the lookup

  ghost predicate AscendingX(bps: seq<Breakpoint>) {
    forall i, j :: 0 <= i < j < |bps| ==> bps[i].0 < bps[j].0
  }

  ghost predicate AscendingY(bps: seq<Breakpoint>) {
    forall i, j :: 0 <= i <= j < |bps| ==> bps[i].1 <= bps[j].1
  }

  lemma {:induction false} BisectRightSplits(bps: seq<Breakpoint>, p: real)
    requires AscendingX(bps)
    ensures forall i :: 0 <= i < BisectRight(bps, p) ==> bps[i].0 <= p
    ensures forall i :: BisectRight(bps, p) <= i < |bps| ==> p < bps[i].0
  {
    if bps != [] && bps[|bps| - 1].0 > p {
      BisectRightSplits(bps[..|bps| - 1], p);
    }
  }

  lemma LookupMonotone(bps: seq<Breakpoint>, p: real, q: real)
    requires bps != [] && AscendingX(bps) && AscendingY(bps) && p <= q
    ensures Predict(bps, p) <= Predict(bps, q)
  {
    BisectRightSplits(bps, p);
    BisectRightSplits(bps, q);
    var n, m := BisectRight(bps, p), BisectRight(bps, q);
    assert m < |bps| ==> p < bps[m].0;
    assert n <= m;
  }

  lemma {:induction false} FlattenOffset(parts: seq<seq<Block>>, k: nat, i: nat)
    requires k < |parts| && i < |parts[k]|
    ensures |Flatten(parts[..k])| + i < |Flatten(parts[..k + 1])| <= |Flatten(parts)|
    ensures Flatten(parts)[|Flatten(parts[..k])| + i] == parts[k][i]
    decreases |parts|
  {
    var n := |parts| - 1;
    if k < n {
      FlattenOffset(parts[..n], k, i);
      assert parts[..n][..k] == parts[..k] && parts[..n][..k + 1] == parts[..k + 1];
    } else {
      assert parts[..k + 1] == parts;
    }
  }

  lemma {:induction false} FlattenPrefixLength(parts: seq<seq<Block>>, k: nat, l: nat)
    requires k <= l <= |parts|
    ensures |Flatten(parts[..k])| <= |Flatten(parts[..l])|
    decreases l
  {
    if k < l {
      FlattenPrefixLength(parts, k, l - 1);
      assert parts[..l][..l - 1] == parts[..l - 1];
    }
  }

  lemma RunsOrdered(parts: seq<seq<Block>>, k: nat, i: nat, l: nat, j: nat)
    requires Ascending(Flatten(parts))
    requires k < |parts| && i < |parts[k]| && l < |parts| && j < |parts[l]|
    requires k < l || (k == l && i < j)
    ensures parts[k][i].x < parts[l][j].x
  {
    FlattenOffset(parts, k, i);
    FlattenOffset(parts, l, j);
    if k < l {
      FlattenPrefixLength(parts, k + 1, l);
    }
  }

  lemma MeanInUnit(b: Block)
    requires b.Valid()
    ensures 0.0 <= b.Mean() <= 1.0
  {
    UnitQuotient(b.positives as real, b.count as real);
  }

  ghost function StepFunction(bps: seq<Breakpoint>): real -> real
    requires bps != []
  {
    (p: real) => Predict(bps, p)
  }

  /** The lookup returns, on every group, the mean of the run that holds it. */
  lemma LookupFollowsMeans(parts: seq<seq<Block>>)
    requires parts != [] && Runs(parts) && Ascending(Flatten(parts))
    ensures AscendingX(Breakpoints(Pools(parts)))
    ensures FollowsMeans(parts, StepFunction(Breakpoints(Pools(parts))))
  {
    var bps := Breakpoints(Pools(parts));
    forall i, j | 0 <= i < j < |bps| ensures bps[i].0 < bps[j].0 {
      RunsOrdered(parts, i, 0, j, 0);
    }
    forall k, i | 0 <= k < |parts| && 0 <= i < |parts[k]|
      ensures Predict(bps, parts[k][i].x) == Pool(parts[k]).Mean()
    {
      var p := parts[k][i].x;
      BisectRightSplits(bps, p);
      var n := BisectRight(bps, p);
      if i > 0 {
        RunsOrdered(parts, k, 0, k, i);
      }
      assert bps[k].0 <= p;
      if k + 1 < |parts| {
        RunsOrdered(parts, k, i, k + 1, 0);
        assert p < bps[k + 1].0;
      }
      assert n == k + 1;
      MeanInUnit(Pool(parts[k]));
    }
  }

  // ---------------------------------------------------------------- theorems on the rows

  ghost function RunsFor(samples: seq<Sample>): (parts: seq<seq<Block>>)
    ensures Runs(parts)
  {
    RunsOf(GroupsOf(samples))
  }

  /** Every list of rows: the blocks pool contiguous runs of the distinct probabilities, each run
      is prefix-heavy, and the emitted values are those runs' means: in [0, 1], non-decreasing,
      never clamped. */
  lemma FitShape(samples: seq<Sample>)
    ensures Flatten(RunsFor(samples)) == GroupsOf(samples) && Ascending(GroupsOf(samples))
    ensures AllHeavy(RunsFor(samples))
    ensures |Fit(samples)| == |RunsFor(samples)|
    ensures forall k :: 0 <= k < |Fit(samples)| ==>
              && Fit(samples)[k].0 == RunsFor(samples)[k][0].x
              && Fit(samples)[k].1 == Pool(RunsFor(samples)[k]).Mean()
              && 0.0 <= Fit(samples)[k].1 <= 1.0
    ensures AscendingX(Fit(samples)) && AscendingY(Fit(samples))
    ensures samples != [] ==> Fit(samples) != []
    ensures samples != [] ==> FollowsMeans(RunsFor(samples), StepFunction(Fit(samples)))
  {
    var gs, parts := GroupsOf(samples), RunsFor(samples);
    GroupsAscend(samples);
    RunsOfCover(gs);
    RunsOfInvariant(gs);
    PooledIsPools(gs);
    BreakpointsShape(parts);
    if samples != [] {
      assert parts != [];
      LookupFollowsMeans(parts);
    }
  }

  lemma BreakpointsShape(parts: seq<seq<Block>>)
    requires Runs(parts) && Ascending(Flatten(parts)) && MeansAscend(Pools(parts))
    ensures |Breakpoints(Pools(parts))| == |parts|
    ensures forall k :: 0 <= k < |parts| ==>
              && Breakpoints(Pools(parts))[k].0 == parts[k][0].x
              && Breakpoints(Pools(parts))[k].1 == Pool(parts[k]).Mean()
              && 0.0 <= Breakpoints(Pools(parts))[k].1 <= 1.0
    ensures AscendingX(Breakpoints(Pools(parts))) && AscendingY(Breakpoints(Pools(parts)))
  {
    var bs := Pools(parts);
    var bps := Breakpoints(bs);
    forall k | 0 <= k < |parts|
      ensures bps[k].0 == parts[k][0].x && bps[k].1 == Pool(parts[k]).Mean() == bs[k].Mean() && 0.0 <= bps[k].1 <= 1.0
    {
      MeanInUnit(bs[k]);
    }
    if parts != [] {
      LookupFollowsMeans(parts);
    }
  }

  lemma {:induction false} GroupedCount(samples: seq<Sample>)
    ensures Count(Grouped(samples)) == |samples|
  {
    if samples != [] {
      var n := |samples| - 1;
      GroupedCount(samples[..n]);
      var before, after := Grouped(samples[..n]), Grouped(samples);
      assert after[..|after| - 1] == if |after| == |before| then before[..|before| - 1] else before;
    }
  }

  lemma {:induction false} PositivesTotal(gs: seq<Block>)
    ensures Total(PositiveTerm(), gs) == Positives(gs) as real
  {
    if gs != [] {
      PositivesTotal(gs[..|gs| - 1]);
    }
  }

  lemma {:induction false} PoolsConserve(parts: seq<seq<Block>>)
    requires Runs(parts)
    ensures Count(Pools(parts)) == Count(Flatten(parts))
    ensures Positives(Pools(parts)) == Positives(Flatten(parts))
  {
    if parts != [] {
      var n := |parts| - 1;
      PoolsConserve(parts[..n]);
      assert Pools(parts)[..n] == Pools(parts[..n]);
      TotalsConcat(Flatten(parts[..n]), parts[n]);
    }
  }

  /** No row is lost or counted twice: the pooled blocks hold every row and every positive label,
      over exactly the distinct probabilities of the sample. */
  lemma FitConserves(samples: seq<Sample>)
    ensures Count(Pooled(GroupsOf(samples))) == |samples|
    ensures Positives(Pooled(GroupsOf(samples))) as real == Sum(Hit(), samples)
    ensures (set g | g in Flatten(RunsFor(samples)) :: g.x) == (set s | s in samples :: s.x)
  {
    var ordered := Sort(SampleLeq, samples);
    FitShape(samples);
    PooledIsPools(GroupsOf(samples));
    PoolsConserve(RunsFor(samples));
    SortPermutes(SampleLeq, samples);
    GroupedCount(ordered);
    ValueTermsAddUp(p => p);
    GroupsTotal(Hit(), PositiveTerm(), samples);
    PositivesTotal(GroupsOf(samples));
    GroupedCovers(ordered);
    SameMembers(ordered, samples);
  }

  /** The calibration map fitted on a non-empty sample. */
  ghost function Calibrator(samples: seq<Sample>): real -> real
    requires samples != []
  {
    FitShape(samples);
    StepFunction(Fit(samples))
  }

  /** The calibration map never reverses two probabilities, seen or unseen. */
  lemma CalibratorMonotone(samples: seq<Sample>)
    requires samples != []
    ensures Monotone(Calibrator(samples))
  {
    FitShape(samples);
    forall p, q | p <= q ensures Calibrator(samples)(p) <= Calibrator(samples)(q) {
      LookupMonotone(Fit(samples), p, q);
    }
  }

  /** The fit minimises the squared error among all non-decreasing functions, and any competitor
      loses by at least its squared distance to the fit. */
  lemma FitIsOptimal(samples: seq<Sample>, f: real -> real)
    requires samples != [] && Monotone(f)
    ensures Sum(SquaredError(f), samples)
         >= Sum(SquaredError(Calibrator(samples)), samples) + Sum(SquaredGap(f, Calibrator(samples)), samples)
  {
    var h := Calibrator(samples);
    FitShape(samples);
    RunsOptimal(RunsFor(samples), f, h);
    ErrorTermsAddUp(f);
    ErrorTermsAddUp(h);
    GapTermsAddUp(f, h);
    GroupsTotal(SquaredError(f), ErrorTerm(f), samples);
    GroupsTotal(SquaredError(h), ErrorTerm(h), samples);
    GroupsTotal(SquaredGap(f, h), DistanceTerm(f, h), samples);
  }

  lemma {:induction false} GapsVanish(f: real -> real, h: real -> real, samples: seq<Sample>)
    ensures Sum(SquaredGap(f, h), samples) >= 0.0
    ensures Sum(SquaredGap(f, h), samples) <= 0.0 ==> forall s :: s in samples ==> f(s.x) == h(s.x)
  {
    if samples != [] {
      GapsVanish(f, h, samples[1..]);
      SquareZero(f(samples[0].x) - h(samples[0].x));
      assert samples == [samples[0]] + samples[1..];
    }
  }

  lemma SquarePositive(v: real)
    requires v > 0.0
    ensures Square(v) > 0.0
  {
    ProductPositive(v, v, Square(v));
  }

  lemma SquareZero(v: real)
    ensures Square(v) >= 0.0
    ensures v != 0.0 ==> Square(v) > 0.0
  {
    assert Square(v) == Square(-v);
    if v != 0.0 {
      SquarePositive(if v > 0.0 then v else -v);
    }
  }

  /** Any non-decreasing function that does as well agrees with the fit on every training row. */
  lemma FitIsUnique(samples: seq<Sample>, f: real -> real)
    requires samples != [] && Monotone(f)
    requires Sum(SquaredError(f), samples) <= Sum(SquaredError(Calibrator(samples)), samples)
    ensures forall s :: s in samples ==> f(s.x) == Calibrator(samples)(s.x)
  {
    FitIsOptimal(samples, f);
    GapsVanish(f, Calibrator(samples), samples);
  }

  /** The Brier part of `_score`. */
  ghost function Brier(f: real -> real, samples: seq<Sample>): real
    requires samples != []
  {
    Sum(SquaredError(f), samples) / |samples| as real
  }

  /** In sample, calibrating never worsens the Brier score of the raw probabilities. */
  lemma CalibrationNeverHurtsInSample(samples: seq<Sample>)
    requires samples != []
    ensures Brier(Calibrator(samples), samples) <= Brier(p => p, samples)
  {
    var id: real -> real := p => p;
    FitIsOptimal(samples, id);
    GapsVanish(id, Calibrator(samples), samples);
    DivideLeq(Sum(SquaredError(Calibrator(samples)), samples), Sum(SquaredError(id), samples), |samples| as real);
  }

  lemma {:induction false} RunValues(part: seq<Block>, h: real -> real, mu: real)
    requires forall k :: 0 <= k < |part| ==> h(part[k].x) == mu
    ensures Total(ValueTerm(h), part) == Total(PositiveTerm(), part) + Deficit(part, mu)
  {
    if part != [] {
      RunValues(part[..|part| - 1], h, mu);
    }
  }

  lemma {:induction false} RunsValues(parts: seq<seq<Block>>, h: real -> real)
    requires Runs(parts) && FollowsMeans(parts, h)
    ensures Total(ValueTerm(h), Flatten(parts)) == Total(PositiveTerm(), Flatten(parts))
  {
    if parts != [] {
      var n := |parts| - 1;
      RunsValues(parts[..n], h);
      RunValues(parts[n], h, Pool(parts[n]).Mean());
      MeanTimesCount(parts[n]);
      TotalConcat(ValueTerm(h), Flatten(parts[..n]), parts[n]);
      TotalConcat(PositiveTerm(), Flatten(parts[..n]), parts[n]);
    }
  }

  /** The calibrated probabilities of the training rows add up to the number of positive labels. */
  lemma CalibrationConservesPositives(samples: seq<Sample>)
    requires samples != []
    ensures Sum(Value(Calibrator(samples)), samples) == Sum(Hit(), samples)
  {
    var h := Calibrator(samples);
    FitShape(samples);
    RunsValues(RunsFor(samples), h);
    ValueTermsAddUp(h);
    GroupsTotal(Value(h), ValueTerm(h), samples);
    GroupsTotal(Hit(), PositiveTerm(), samples);
  }
}
