/** What the isotonic fit is for: it is the closest non-decreasing function to the labels. */
module IsotonicProofs {
  import opened Arithmetic
  import opened Isotonic

  // ---------------------------------------------------------------- totals of a run of groups

  ghost function Count(gs: seq<Block>): nat {
    if gs == [] then 0 else Count(gs[..|gs| - 1]) + gs[|gs| - 1].count
  }

  ghost function Positives(gs: seq<Block>): nat {
    if gs == [] then 0 else Positives(gs[..|gs| - 1]) + gs[|gs| - 1].positives
  }

  lemma {:induction false} TotalsConcat(a: seq<Block>, b: seq<Block>)
    ensures Count(a + b) == Count(a) + Count(b)
    ensures Positives(a + b) == Positives(a) + Positives(b)
  {
    if b == [] {
      assert a + b == a;
    } else {
      var n := |b| - 1;
      assert (a + b)[..|a + b| - 1] == a + b[..n];
      TotalsConcat(a, b[..n]);
    }
  }

  lemma {:induction false} TotalsValid(gs: seq<Block>)
    requires AllValid(gs)
    ensures Positives(gs) <= Count(gs)
    ensures gs != [] ==> 0 < Count(gs)
  {
    if gs != [] {
      TotalsValid(gs[..|gs| - 1]);
    }
  }

  /** The block that pools a run of groups. */
  ghost function Pool(part: seq<Block>): (b: Block)
    requires part != [] && AllValid(part)
    ensures b.Valid()
  {
    TotalsValid(part);
    Block(part[0].x, Count(part), Positives(part))
  }

  // ---------------------------------------------------------------- the runs behind the blocks

  ghost function Flatten(parts: seq<seq<Block>>): seq<Block> {
    if parts == [] then [] else Flatten(parts[..|parts| - 1]) + parts[|parts| - 1]
  }

  ghost predicate Runs(parts: seq<seq<Block>>) {
    forall k :: 0 <= k < |parts| ==> parts[k] != [] && AllValid(parts[k])
  }

  ghost function Pools(parts: seq<seq<Block>>): (bs: seq<Block>)
    requires Runs(parts)
    ensures AllValid(bs)
  {
    seq(|parts|, k requires 0 <= k < |parts| => Pool(parts[k]))
  }

  ghost predicate Ascending(gs: seq<Block>) {
    forall i, j :: 0 <= i < j < |gs| ==> gs[i].x < gs[j].x
  }

  ghost function CollapseRuns(parts: seq<seq<Block>>): (r: seq<seq<Block>>)
    requires Runs(parts)
    ensures Runs(r)
    decreases |parts|
  {
    var n := |parts|;
    if n >= 2 && Pool(parts[n - 2]).Mean() > Pool(parts[n - 1]).Mean()
    then CollapseRuns(parts[..n - 2] + [parts[n - 2] + parts[n - 1]])
    else parts
  }

  /** The contiguous runs of groups that the final blocks pool. */
  ghost function RunsOf(gs: seq<Block>): (r: seq<seq<Block>>)
    requires AllValid(gs)
    ensures Runs(r)
  {
    if gs == [] then [] else CollapseRuns(RunsOf(gs[..|gs| - 1]) + [[gs[|gs| - 1]]])
  }

  lemma FlattenSnoc(parts: seq<seq<Block>>, p: seq<Block>)
    ensures Flatten(parts + [p]) == Flatten(parts) + p
  {
    assert (parts + [p])[..|parts|] == parts;
  }

  lemma FlattenJoin(init: seq<seq<Block>>, a: seq<Block>, b: seq<Block>)
    ensures Flatten(init + [a + b]) == Flatten((init + [a]) + [b])
  {
    FlattenSnoc(init, a + b);
    FlattenSnoc(init, a);
    FlattenSnoc(init + [a], b);
    assert (Flatten(init) + a) + b == Flatten(init) + (a + b);
  }

  lemma FlattenMerge(parts: seq<seq<Block>>)
    requires |parts| >= 2
    ensures Flatten(parts[..|parts| - 2] + [parts[|parts| - 2] + parts[|parts| - 1]]) == Flatten(parts)
  {
    var n := |parts| - 2;
    FlattenJoin(parts[..n], parts[n], parts[n + 1]);
    assert parts == (parts[..n] + [parts[n]]) + [parts[n + 1]];
  }

  lemma {:induction false} CollapseRunsFlatten(parts: seq<seq<Block>>)
    requires Runs(parts)
    ensures Flatten(CollapseRuns(parts)) == Flatten(parts)
    decreases |parts|
  {
    hide Flatten;
    hide Pool;
    hide Block.Mean;
    var n := |parts|;
    if n >= 2 && Pool(parts[n - 2]).Mean() > Pool(parts[n - 1]).Mean() {
      FlattenMerge(parts);
      CollapseRunsFlatten(parts[..n - 2] + [parts[n - 2] + parts[n - 1]]);
    }
  }

  /** The runs are contiguous and cover every group exactly once. */
  lemma {:induction false} RunsOfCover(gs: seq<Block>)
    requires AllValid(gs)
    ensures Flatten(RunsOf(gs)) == gs
  {
    hide CollapseRuns;
    hide Block.Valid;
    if gs != [] {
      var n := |gs| - 1;
      var prev := RunsOf(gs[..n]);
      RunsOfCover(gs[..n]);
      FlattenSnoc(prev, [gs[n]]);
      CollapseRunsFlatten(prev + [[gs[n]]]);
    }
  }

  lemma AscendingSplit(a: seq<Block>, b: seq<Block>)
    requires Ascending(a + b)
    ensures Ascending(a) && Ascending(b)
  {
    assert forall i :: 0 <= i < |a| ==> (a + b)[i] == a[i];
    assert forall i :: 0 <= i < |b| ==> (a + b)[|a| + i] == b[i];
  }

  lemma {:induction false} AscendingParts(parts: seq<seq<Block>>, k: nat)
    requires k < |parts| && Ascending(Flatten(parts))
    ensures Ascending(Flatten(parts[..k])) && Ascending(parts[k])
    decreases |parts|
  {
    hide Ascending;
    var n := |parts| - 1;
    AscendingSplit(Flatten(parts[..n]), parts[n]);
    if k < n {
      AscendingParts(parts[..n], k);
      assert parts[..n][..k] == parts[..k];
    }
  }

  lemma PoolMerge(a: seq<Block>, b: seq<Block>)
    requires a != [] && b != [] && AllValid(a) && AllValid(b)
    requires a[0].x <= b[0].x
    ensures Pool(a + b) == Merge(Pool(a), Pool(b))
  {
    TotalsConcat(a, b);
  }

  lemma AscendingAt(gs: seq<Block>, i: nat, j: nat)
    requires Ascending(gs) && i < j < |gs|
    ensures gs[i].x < gs[j].x
  {
  }

  lemma FlattenLastTwo(parts: seq<seq<Block>>)
    requires |parts| >= 2
    ensures Flatten(parts) == Flatten(parts[..|parts| - 2]) + parts[|parts| - 2] + parts[|parts| - 1]
  {
    var n := |parts|;
    assert parts[..n - 1][..n - 2] == parts[..n - 2];
  }

  lemma LastTwoOrdered(parts: seq<seq<Block>>)
    requires |parts| >= 2 && Runs(parts) && Ascending(Flatten(parts))
    ensures parts[|parts| - 2][0].x < parts[|parts| - 1][0].x
  {
    hide Ascending;
    hide Flatten;
    var n := |parts|;
    FlattenLastTwo(parts);
    var i := |Flatten(parts[..n - 2])|;
    AscendingAt(Flatten(parts), i, i + |parts[n - 2]|);
  }

  lemma {:induction false} CollapsePools(parts: seq<seq<Block>>)
    requires Runs(parts) && Ascending(Flatten(parts))
    ensures Collapse(Pools(parts)) == Pools(CollapseRuns(parts))
    decreases |parts|
  {
    var n := |parts|;
    if n >= 2 && Pool(parts[n - 2]).Mean() > Pool(parts[n - 1]).Mean() {
      LastTwoOrdered(parts);
      PoolMerge(parts[n - 2], parts[n - 1]);
      var merged := parts[..n - 2] + [parts[n - 2] + parts[n - 1]];
      FlattenMerge(parts);
      var bs := Pools(parts);
      assert Pools(merged) == bs[..n - 2] + [Merge(bs[n - 2], bs[n - 1])];
      CollapsePools(merged);
    }
  }

  /** The stack of blocks is exactly the pooling of the runs. */
  lemma {:induction false} PooledIsPools(gs: seq<Block>)
    requires AllValid(gs) && Ascending(gs)
    ensures Pooled(gs) == Pools(RunsOf(gs))
  {
    hide Collapse;
    hide CollapseRuns;
    hide Pool;
    if gs != [] {
      var n := |gs| - 1;
      PooledIsPools(gs[..n]);
      var prev := RunsOf(gs[..n]);
      RunsOfCover(gs[..n]);
      FlattenSnoc(prev, [gs[n]]);
      assert Flatten(prev + [[gs[n]]]) == gs;
      CollapsePools(prev + [[gs[n]]]);
      SingletonPool(gs[n]);
      assert Pools(prev + [[gs[n]]]) == Pools(prev) + [gs[n]];
    }
  }

  lemma SingletonPool(b: Block)
    requires b.Valid()
    ensures Pool([b]) == b
  {
    assert [b][..|[b]| - 1] == [];
    assert Count([b]) == Count([]) + b.count;
    assert Positives([b]) == Positives([]) + b.positives;
  }

  // ---------------------------------------------------------------- sums over a run

  ghost function Total(term: Block -> real, gs: seq<Block>): real {
    if gs == [] then 0.0 else Total(term, gs[..|gs| - 1]) + term(gs[|gs| - 1])
  }

  lemma TotalEmpty(term: Block -> real)
    ensures Total(term, []) == 0.0
  {
  }

  lemma TotalLast(term: Block -> real, gs: seq<Block>)
    requires gs != []
    ensures Total(term, gs) == Total(term, gs[..|gs| - 1]) + term(gs[|gs| - 1])
  {
  }

  lemma {:induction false} TotalConcat(term: Block -> real, a: seq<Block>, b: seq<Block>)
    ensures Total(term, a + b) == Total(term, a) + Total(term, b)
  {
    if b == [] {
      assert a + b == a;
    } else {
      var n := |b| - 1;
      assert (a + b)[..|a + b| - 1] == a + b[..n];
      TotalConcat(term, a, b[..n]);
    }
  }

  // ---------------------------------------------------------------- the merge invariant

  /** How far one group's positives fall short of the mean mu. */
  ghost function Short(mu: real): Block -> real {
    (g: Block) => mu * g.count as real - g.positives as real
  }

  ghost function Deficit(gs: seq<Block>, mu: real): real {
    Total(Short(mu), gs)
  }

  lemma {:induction false} DeficitOfTotals(gs: seq<Block>, mu: real)
    ensures Deficit(gs, mu) == mu * Count(gs) as real - Positives(gs) as real
  {
    if gs != [] {
      var n := |gs| - 1;
      DeficitOfTotals(gs[..n], mu);
      Distribute(mu, Count(gs[..n]) as real, gs[n].count as real);
    }
  }

  lemma DeficitRises(gs: seq<Block>, mu: real, nu: real)
    requires mu < nu && gs != [] && AllValid(gs)
    ensures Deficit(gs, mu) < Deficit(gs, nu)
  {
    TotalsValid(gs);
    DeficitOfTotals(gs, mu);
    DeficitOfTotals(gs, nu);
    hide Count;
    hide Positives;
    hide Deficit;
    Lower(Deficit(gs, mu), Deficit(gs, nu), mu, nu, Count(gs), Positives(gs) as real);
  }

  lemma Lower(a: real, b: real, mu: real, nu: real, count: nat, positives: real)
    requires mu < nu && count > 0
    requires a == mu * count as real - positives && b == nu * count as real - positives
    ensures a < b
  {
    MulLess(mu, nu, count as real);
  }

  /** Every proper prefix of the run has a mean above the mean of the run. */
  ghost predicate PrefixHeavy(part: seq<Block>)
    requires part != [] && AllValid(part)
  {
    && (forall k :: 0 <= k <= |part| ==> Deficit(part[..k], Pool(part).Mean()) <= 0.0)
    && (forall k :: 0 < k < |part| ==> Deficit(part[..k], Pool(part).Mean()) < 0.0)
  }

  lemma MeanTimesCount(part: seq<Block>)
    requires part != [] && AllValid(part)
    ensures Pool(part).Mean() * Count(part) as real == Positives(part) as real
    ensures Deficit(part, Pool(part).Mean()) == 0.0
  {
    hide Deficit;
    TotalsValid(part);
    PoolMean(part);
    hide Count;
    hide Positives;
    hide Block.Mean;
    hide Pool;
    DivTimes(Positives(part) as real, Count(part) as real);
    DeficitOfTotals(part, Pool(part).Mean());
  }

  lemma PoolMean(part: seq<Block>)
    requires part != [] && AllValid(part)
    ensures Count(part) > 0 && Pool(part).Mean() == Positives(part) as real / Count(part) as real
  {
    TotalsValid(part);
    hide Count;
    hide Positives;
  }

  lemma AverageBelow(alpha: real, beta: real, mu: real, na: real, nb: real)
    requires na > 0.0 && nb > 0.0 && beta < alpha
    requires mu * (na + nb) == alpha * na + beta * nb
    ensures mu < alpha
  {
    Distribute(alpha, na, nb);
    MulLess(beta, alpha, nb);
    CancelLess(mu, alpha, na + nb);
  }

  /** A weighted average lies strictly between its two unequal ingredients. */
  lemma AverageBetween(pa: real, na: real, pb: real, nb: real)
    requires na > 0.0 && nb > 0.0 && pb / nb < pa / na
    ensures pb / nb < (pa + pb) / (na + nb) < pa / na
  {
    var alpha, beta, mu := pa / na, pb / nb, (pa + pb) / (na + nb);
    DivTimes(pa, na);
    DivTimes(pb, nb);
    DivTimes(pa + pb, na + nb);
    AverageBelow(alpha, beta, mu, na, nb);
    assert (-mu) * (nb + na) == (-beta) * nb + (-alpha) * na;
    AverageBelow(-beta, -alpha, -mu, nb, na);
  }

  lemma PooledMeanBetween(a: seq<Block>, b: seq<Block>)
    requires a != [] && b != [] && AllValid(a) && AllValid(b)
    requires Pool(a).Mean() > Pool(b).Mean()
    ensures Pool(b).Mean() < Pool(a + b).Mean() < Pool(a).Mean()
  {
    TotalsValid(a);
    TotalsValid(b);
    TotalsConcat(a, b);
    AverageBetween(Positives(a) as real, Count(a) as real, Positives(b) as real, Count(b) as real);
  }

  /** Below its own mean, every prefix of a run is heavy. */
  lemma HeadHeavy(a: seq<Block>, mu: real, k: nat)
    requires a != [] && AllValid(a) && PrefixHeavy(a) && mu < Pool(a).Mean() && k <= |a|
    ensures Deficit(a[..k], mu) <= 0.0 && (k > 0 ==> Deficit(a[..k], mu) < 0.0)
  {
    hide Block.Mean;
    hide Pool;
    if k == 0 {
      TotalEmpty(Short(mu));
    } else {
      DeficitRises(a[..k], mu, Pool(a).Mean());
      hide Deficit;
    }
  }

  /** Above its own mean, every suffix of a run is light. */
  lemma TailLight(b: seq<Block>, mu: real, j: nat)
    requires b != [] && AllValid(b) && PrefixHeavy(b) && Pool(b).Mean() < mu && j <= |b|
    ensures Deficit(b[j..], mu) >= 0.0 && (j < |b| ==> Deficit(b[j..], mu) > 0.0)
  {
    hide Block.Mean;
    hide Pool;
    if j == |b| {
      TotalEmpty(Short(mu));
    } else {
      assert b == b[..j] + b[j..];
      TotalConcat(Short(Pool(b).Mean()), b[..j], b[j..]);
      MeanTimesCount(b);
      DeficitRises(b[j..], Pool(b).Mean(), mu);
    }
  }

  /** Merging two violating neighbours keeps the prefix property. */
  lemma MergeKeepsPrefixHeavy(a: seq<Block>, b: seq<Block>)
    requires a != [] && b != [] && AllValid(a) && AllValid(b)
    requires PrefixHeavy(a) && PrefixHeavy(b)
    requires Pool(a).Mean() > Pool(b).Mean()
    ensures PrefixHeavy(a + b)
  {
    hide Block.Mean;
    hide Pool;
    hide Total;
    var ab := a + b;
    var mu := Pool(ab).Mean();
    PooledMeanBetween(a, b);
    MeanTimesCount(ab);
    forall k | 0 <= k <= |ab|
      ensures Deficit(ab[..k], mu) <= 0.0
      ensures 0 < k < |ab| ==> Deficit(ab[..k], mu) < 0.0
    {
      if k <= |a| {
        assert ab[..k] == a[..k];
        HeadHeavy(a, mu, k);
      } else {
        // the rest of b is light, so what precedes it is heavy
        var j := k - |a|;
        assert ab == ab[..k] + b[j..];
        TotalConcat(Short(mu), ab[..k], b[j..]);
        TailLight(b, mu, j);
      }
    }
  }

  ghost predicate AllHeavy(parts: seq<seq<Block>>)
    requires Runs(parts)
  {
    forall k :: 0 <= k < |parts| ==> PrefixHeavy(parts[k])
  }

  ghost predicate MeansAscend(bs: seq<Block>)
    requires AllValid(bs)
  {
    forall i, j :: 0 <= i < j < |bs| ==> bs[i].Mean() <= bs[j].Mean()
  }

  lemma PoolsPrefix(parts: seq<seq<Block>>, n: nat)
    requires Runs(parts) && n <= |parts|
    ensures Runs(parts[..n]) && Pools(parts[..n]) == Pools(parts)[..n]
  {
  }

  lemma MeansAscendPrefix(bs: seq<Block>, n: nat)
    requires AllValid(bs) && n <= |bs| && MeansAscend(bs)
    ensures MeansAscend(bs[..n])
  {
    hide Block.Mean;
    forall i, j | 0 <= i < j < n ensures bs[..n][i].Mean() <= bs[..n][j].Mean() {
      assert bs[i].Mean() <= bs[j].Mean();
    }
  }

  lemma MeansAscendSnoc(bs: seq<Block>)
    requires AllValid(bs) && bs != [] && MeansAscend(bs[..|bs| - 1])
    requires |bs| >= 2 ==> bs[|bs| - 2].Mean() <= bs[|bs| - 1].Mean()
    ensures MeansAscend(bs)
  {
    hide Block.Mean;
    var n := |bs| - 1;
    forall i, j | 0 <= i < j < |bs| ensures bs[i].Mean() <= bs[j].Mean() {
      var init := bs[..n];
      assert j < n ==> init[i].Mean() <= init[j].Mean();
      assert i < n - 1 ==> init[i].Mean() <= init[n - 1].Mean();
    }
  }

  lemma {:induction false} CollapseRunsInvariant(parts: seq<seq<Block>>)
    requires parts != [] && Runs(parts) && AllHeavy(parts)
    requires MeansAscend(Pools(parts)[..|parts| - 1])
    ensures AllHeavy(CollapseRuns(parts)) && MeansAscend(Pools(CollapseRuns(parts)))
    decreases |parts|
  {
    hide PrefixHeavy;
    hide Block.Mean;
    hide Pool;
    var n := |parts|;
    var bs := Pools(parts);
    if n >= 2 && Pool(parts[n - 2]).Mean() > Pool(parts[n - 1]).Mean() {
      MergeKeepsPrefixHeavy(parts[n - 2], parts[n - 1]);
      var merged := parts[..n - 2] + [parts[n - 2] + parts[n - 1]];
      assert merged[..n - 2] == parts[..n - 2];
      PoolsPrefix(merged, n - 2);
      PoolsPrefix(parts, n - 2);
      assert AllHeavy(merged) by {
        forall k | 0 <= k < |merged| ensures PrefixHeavy(merged[k]) {
          assert k < n - 2 ==> merged[k] == parts[k];
        }
      }
      MeansAscendPrefix(bs[..n - 1], n - 2);
      assert Pools(merged)[..n - 2] == bs[..n - 1][..n - 2];
      CollapseRunsInvariant(merged);
    } else {
      MeansAscendSnoc(bs);
    }
  }

  lemma SingletonHeavy(b: Block)
    requires b.Valid()
    ensures PrefixHeavy([b])
  {
    MeanTimesCount([b]);
    assert [b][..1] == [b] && [b][..0] == [];
  }

  /** On the final stack every block is prefix-heavy and the means do not decrease. */
  lemma {:induction false} RunsOfInvariant(gs: seq<Block>)
    requires AllValid(gs)
    ensures AllHeavy(RunsOf(gs)) && MeansAscend(Pools(RunsOf(gs)))
  {
    hide PrefixHeavy;
    hide Block.Mean;
    hide Pool;
    if gs != [] {
      var n := |gs| - 1;
      RunsOfInvariant(gs[..n]);
      SingletonHeavy(gs[n]);
      var prev := RunsOf(gs[..n]);
      var next := prev + [[gs[n]]];
      assert next[..|prev|] == prev;
      PoolsPrefix(next, |prev|);
      assert AllHeavy(next);
      CollapseRunsInvariant(next);
    }
  }

  // ---------------------------------------------------------------- squared error of groups

  ghost function Square(v: real): real { v * v }

  /** Squared error of the value v against the labels pooled in one group. */
  ghost function GroupError(g: Block, v: real): real {
    g.count as real * Square(v) - 2.0 * (g.positives as real * v) + g.positives as real
  }

  ghost function GroupDistance(g: Block, v: real, w: real): real {
    g.count as real * Square(v - w)
  }

  ghost function ErrorTerm(f: real -> real): Block -> real {
    (g: Block) => GroupError(g, f(g.x))
  }

  ghost function DistanceTerm(f: real -> real, h: real -> real): Block -> real {
    (g: Block) => GroupDistance(g, f(g.x), h(g.x))
  }

  ghost function Error(gs: seq<Block>, f: real -> real): real {
    Total(ErrorTerm(f), gs)
  }

  /** Weighted squared distance between two functions on the groups. */
  ghost function Distance(gs: seq<Block>, f: real -> real, h: real -> real): real {
    Total(DistanceTerm(f, h), gs)
  }

  ghost predicate Monotone(f: real -> real) {
    forall x, y :: x <= y ==> f(x) <= f(y)
  }

  ghost function WeightedTerm(f: real -> real, mu: real): Block -> real {
    (g: Block) => f(g.x) * Short(mu)(g)
  }

  lemma PartsStep(total: real, total': real, u: real, v: real, before: real, after: real, d: real)
    requires u <= v && before <= 0.0 && total >= u * before
    requires after == before + d && total' == total + v * d
    ensures total' >= v * after
  {
    assert u * before >= v * before;
    assert v * after == v * before + v * d;
  }

  lemma WeightedAt(f: real -> real, mu: real, g: Block)
    ensures WeightedTerm(f, mu)(g) == f(g.x) * Short(mu)(g)
  {
  }

  /** Summation by parts along the prefixes. */
  lemma {:induction false} WeightedBound(part: seq<Block>, f: real -> real, mu: real)
    requires part != [] && Ascending(part) && Monotone(f)
    requires forall k :: 0 <= k < |part| ==> Total(Short(mu), part[..k]) <= 0.0
    ensures Total(WeightedTerm(f, mu), part) >= f(part[|part| - 1].x) * Total(Short(mu), part)
  {
    hide Total;
    hide Short;
    hide WeightedTerm;
    var n := |part| - 1;
    var g := part[n];
    var u := g.x;
    if n == 0 {
      assert part[..0] == [];
      TotalEmpty(WeightedTerm(f, mu));
      TotalEmpty(Short(mu));
      assert 0.0 >= f(u) * 0.0;
    } else {
      u := part[n - 1].x;
      assert forall k :: 0 <= k < n ==> part[..n][..k] == part[..k];
      WeightedBound(part[..n], f, mu);
    }
    TotalLast(WeightedTerm(f, mu), part);
    TotalLast(Short(mu), part);
    WeightedAt(f, mu, g);
    PartsStep(Total(WeightedTerm(f, mu), part[..n]), Total(WeightedTerm(f, mu), part), f(u), f(g.x),
              Total(Short(mu), part[..n]), Total(Short(mu), part), Short(mu)(g));
  }

  lemma GroupExpansion(g: Block, v: real, mu: real)
    ensures GroupError(g, v) == GroupError(g, mu) + GroupDistance(g, v, mu)
                                + 2.0 * (v * Short(mu)(g)) - 2.0 * (mu * Short(mu)(g))
  {
    hide Square;
    SquareExpansion(g.count as real, g.positives as real, v, mu);
  }

  lemma SquareExpansion(n: real, p: real, v: real, mu: real)
    ensures n * Square(v) - 2.0 * (p * v) + p
         == n * Square(mu) - 2.0 * (p * mu) + p + n * Square(v - mu)
            + 2.0 * (v * (mu * n - p)) - 2.0 * (mu * (mu * n - p))
  {
    assert Square(v - mu) == Square(v) - 2.0 * (v * mu) + Square(mu);
    assert n * Square(v - mu) == n * Square(v) - 2.0 * (n * (v * mu)) + n * Square(mu);
    assert v * (mu * n - p) == n * (v * mu) - p * v;
    assert mu * (mu * n - p) == n * Square(mu) - p * mu;
  }

  /** Error around a function h that is the constant mu on the run, expanded. */
  lemma {:induction false} ErrorExpansion(part: seq<Block>, f: real -> real, h: real -> real, mu: real)
    requires forall k :: 0 <= k < |part| ==> h(part[k].x) == mu
    ensures Error(part, f) == Error(part, h) + Distance(part, f, h)
                              + 2.0 * Total(WeightedTerm(f, mu), part) - 2.0 * (mu * Deficit(part, mu))
  {
    hide Total;
    hide GroupError;
    hide GroupDistance;
    hide Short;
    if part == [] {
      TotalEmpty(ErrorTerm(f));
      TotalEmpty(ErrorTerm(h));
      TotalEmpty(DistanceTerm(f, h));
      TotalEmpty(WeightedTerm(f, mu));
      TotalEmpty(Short(mu));
    } else {
      var n := |part| - 1;
      ErrorExpansion(part[..n], f, h, mu);
      TotalLast(ErrorTerm(f), part);
      TotalLast(ErrorTerm(h), part);
      TotalLast(DistanceTerm(f, h), part);
      TotalLast(WeightedTerm(f, mu), part);
      TotalLast(Short(mu), part);
      GroupExpansion(part[n], f(part[n].x), mu);
      Distribute(mu, Deficit(part[..n], mu), Short(mu)(part[n]));
    }
  }

  /** On one run, its mean beats every non-decreasing function, by the distance to it. */
  lemma RunOptimal(part: seq<Block>, f: real -> real, h: real -> real)
    requires part != [] && AllValid(part) && Ascending(part) && PrefixHeavy(part)
    requires Monotone(f)
    requires forall k :: 0 <= k < |part| ==> h(part[k].x) == Pool(part).Mean()
    ensures Error(part, f) >= Error(part, h) + Distance(part, f, h)
  {
    var mu := Pool(part).Mean();
    MeanTimesCount(part);
    ErrorExpansion(part, f, h, mu);
    WeightedBound(part, f, mu);
  }

  /** h takes, on every group of a run, the mean of that run. */
  ghost predicate FollowsMeans(parts: seq<seq<Block>>, h: real -> real)
    requires Runs(parts)
  {
    forall k, i :: 0 <= k < |parts| && 0 <= i < |parts[k]| ==> h(parts[k][i].x) == Pool(parts[k]).Mean()
  }

  lemma {:induction false} RunsOptimal(parts: seq<seq<Block>>, f: real -> real, h: real -> real)
    requires Runs(parts) && AllHeavy(parts) && Ascending(Flatten(parts)) && Monotone(f)
    requires FollowsMeans(parts, h)
    ensures Error(Flatten(parts), f) >= Error(Flatten(parts), h) + Distance(Flatten(parts), f, h)
  {
    if parts != [] {
      var n := |parts| - 1;
      AscendingParts(parts, n);
      RunsOptimal(parts[..n], f, h);
      RunOptimal(parts[n], f, h);
      TotalConcat(ErrorTerm(f), Flatten(parts[..n]), parts[n]);
      TotalConcat(ErrorTerm(h), Flatten(parts[..n]), parts[n]);
      TotalConcat(DistanceTerm(f, h), Flatten(parts[..n]), parts[n]);
    }
  }
}
