/** The isotonic fit of scripts/audit_xauusd_m1_oos_calibration.py: duplicate-x grouping,
    pool-adjacent-violators on a stack of blocks, and the breakpoint lookup. */
module Isotonic {
  import opened Sorting

  /** One (probability, label) pair. */
  datatype Sample = Sample(x: real, hit: bool) {
    function Label(): nat { if hit then 1 else 0 }
  }

  /** A pooled block: smallest probability, number of rows, number of positive labels. */
  datatype Block = Block(x: real, count: nat, positives: nat) {
    predicate Valid() { 0 < count && positives <= count }
    function Mean(): real
      requires Valid()
    {
      positives as real / count as real
    }
  }

  type Breakpoint = (real, real)

  predicate SampleLeq(a: Sample, b: Sample) {
    a.x < b.x || (a.x == b.x && a.Label() <= b.Label())
  }

  predicate AllValid(bs: seq<Block>) {
    forall k :: 0 <= k < |bs| ==> bs[k].Valid()
  }

  // ---------------------------------------------------------------- specification

  /** A group with one more row. */
  function Grown(b: Block, s: Sample): Block {
    Block(b.x, b.count + 1, b.positives + s.Label())
  }

  function Absorb(groups: seq<Block>, s: Sample): seq<Block> {
    if groups != [] && groups[|groups| - 1].x == s.x then
      groups[..|groups| - 1] + [Grown(groups[|groups| - 1], s)]
    else
      groups + [Block(s.x, 1, s.Label())]
  }

  function Grouped(samples: seq<Sample>): (gs: seq<Block>)
    ensures AllValid(gs)
  {
    if samples == [] then []
    else Absorb(Grouped(samples[..|samples| - 1]), samples[|samples| - 1])
  }

  function Merge(a: Block, b: Block): Block {
    Block(if a.x <= b.x then a.x else b.x, a.count + b.count, a.positives + b.positives)
  }

  function Collapse(blocks: seq<Block>): (r: seq<Block>)
    requires AllValid(blocks)
    ensures AllValid(r)
    decreases |blocks|
  {
    var n := |blocks|;
    if n >= 2 && blocks[n - 2].Mean() > blocks[n - 1].Mean()
    then Collapse(blocks[..n - 2] + [Merge(blocks[n - 2], blocks[n - 1])])
    else blocks
  }

  function Pooled(groups: seq<Block>): (r: seq<Block>)
    requires AllValid(groups)
    ensures AllValid(r)
  {
    if groups == [] then []
    else Collapse(Pooled(groups[..|groups| - 1]) + [groups[|groups| - 1]])
  }

  function Clamp01(v: real): real {
    if v < 0.0 then 0.0 else if v > 1.0 then 1.0 else v
  }

  function Breakpoints(blocks: seq<Block>): seq<Breakpoint>
    requires AllValid(blocks)
  {
    seq(|blocks|, k requires 0 <= k < |blocks| => (blocks[k].x, Clamp01(blocks[k].Mean())))
  }

  function Fit(samples: seq<Sample>): seq<Breakpoint> {
    Breakpoints(Pooled(Grouped(Sort(SampleLeq, samples))))
  }

  /** Insertion point after every entry that is at most `p`, for ascending abscissae. */
  function BisectRight(bps: seq<Breakpoint>, p: real): (n: nat)
    ensures n <= |bps|
  {
    if bps == [] then 0
    else if bps[|bps| - 1].0 <= p then |bps|
    else BisectRight(bps[..|bps| - 1], p)
  }

  function Predict(bps: seq<Breakpoint>, p: real): real
    requires bps != []
  {
    var n := BisectRight(bps, p);
    bps[if n == 0 then 0 else n - 1].1
  }

  // ---------------------------------------------------------------- the algorithm

  method GroupDuplicates(ordered: seq<Sample>) returns (grouped: seq<Block>)
    ensures grouped == Grouped(ordered)
  {
    grouped := [];
    for i := 0 to |ordered|
      invariant grouped == Grouped(ordered[..i])
    {
      var s := ordered[i];
      assert ordered[..i + 1][..i] == ordered[..i];
      if grouped != [] && grouped[|grouped| - 1].x == s.x {
        grouped := grouped[..|grouped| - 1] + [Grown(grouped[|grouped| - 1], s)];
      } else {
        grouped := grouped + [Block(s.x, 1, s.Label())];
      }
      assert grouped == Absorb(Grouped(ordered[..i]), s);
    }
    assert ordered[..|ordered|] == ordered;
  }

  method PoolAdjacentViolators(grouped: seq<Block>) returns (blocks: seq<Block>)
    requires AllValid(grouped)
    ensures AllValid(blocks) && blocks == Pooled(grouped)
  {
    blocks := [];
    for i := 0 to |grouped|
      invariant AllValid(blocks) && blocks == Pooled(grouped[..i])
    {
      assert grouped[..i + 1][..i] == grouped[..i];
      blocks := blocks + [grouped[i]];
      while |blocks| >= 2
        invariant AllValid(blocks) && Collapse(blocks) == Pooled(grouped[..i + 1])
        decreases |blocks|
      {
        var a, b := blocks[|blocks| - 2], blocks[|blocks| - 1];
        if a.Mean() <= b.Mean() {
          break;
        }
        blocks := blocks[..|blocks| - 2] + [Merge(a, b)];
      }
    }
    assert grouped[..|grouped|] == grouped;
  }

  method Pava(rows: seq<Sample>) returns (bps: seq<Breakpoint>)
    ensures bps == Fit(rows)
  {
    var ordered := Sort(SampleLeq, rows);
    var grouped := GroupDuplicates(ordered);
    var blocks := PoolAdjacentViolators(grouped);
    bps := Breakpoints(blocks);
  }
}
