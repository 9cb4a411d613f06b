/** The ROI statistics accumulator of DoTrackit.c (`ScoreTrackGrid`): for each
    voxel a track passes through, the FA, MD, RD and L1 values sampled there and
    their squares are added into the nine running sums `PG[h][C][B][0..8]`, slot
    8 counting the samples. Mean and standard deviation are later derived from
    these sums. */
module TrackGrid {

  /** The three values sampled at one voxel: FA, MD and L1. */
  datatype Sample = Sample(fa: real, md: real, l1: real)

  /** Radial diffusivity `0.5 * (3 * MD - L1)`: with `MD` the mean of the
      three eigenvalues and `L1` the principal one, the mean of the other two. */
  function Radial(s: Sample): real {
    0.5 * (3.0 * s.md - s.l1)
  }

  /** `pow(x, 2)`. */
  function Sq(x: real): real {
    x * x
  }

  /** What one sample adds to the nine sums: each metric and its square, then 1. */
  function Contribution(s: Sample): (c: seq<real>)
    ensures |c| == 9
  {
    [s.fa, Sq(s.fa), s.md, Sq(s.md), Radial(s), Sq(Radial(s)), s.l1, Sq(s.l1), 1.0]
  }

  /** `ScoreTrackGrid`: add the contribution of sample `s` into the nine sums of
      cell `PG[h][C][B]`; every other cell keeps its value. Returns 1. */
  method ScoreTrackGrid(PG: array4<real>, h: int, C: int, B: int, s: Sample) returns (r: int)
    requires 0 <= h < PG.Length0 && 0 <= C < PG.Length1 && 0 <= B < PG.Length2 && 9 <= PG.Length3
    modifies PG
    ensures r == 1
    ensures forall k :: 0 <= k < 9 ==> PG[h, C, B, k] == old(PG[h, C, B, k]) + Contribution(s)[k]
    ensures forall a, b, c, k ::
              (0 <= a < PG.Length0 && 0 <= b < PG.Length1 && 0 <= c < PG.Length2 && 0 <= k < PG.Length3 &&
               !(a == h && b == C && c == B && k < 9)) ==> PG[a, b, c, k] == old(PG[a, b, c, k])
  {
    var fa, md, l1 := s.fa, s.md, s.l1;
    // mean and spread of FA, MD, RD and L1
    PG[h, C, B, 0] := PG[h, C, B, 0] + fa;
    PG[h, C, B, 1] := PG[h, C, B, 1] + Sq(fa);
    PG[h, C, B, 2] := PG[h, C, B, 2] + md;
    PG[h, C, B, 3] := PG[h, C, B, 3] + Sq(md);
    var rd := 0.5 * (3.0 * md - l1);
    PG[h, C, B, 4] := PG[h, C, B, 4] + rd;
    PG[h, C, B, 5] := PG[h, C, B, 5] + Sq(rd);
    PG[h, C, B, 6] := PG[h, C, B, 6] + l1;
    PG[h, C, B, 7] := PG[h, C, B, 7] + Sq(l1);
    PG[h, C, B, 8] := PG[h, C, B, 8] + 1.0;
    return 1;
  }
}

/** The running sums `ScoreTrackGrid` keeps, as functions of the samples
    scored so far, and what they guarantee about the statistics derived from them. */
module GridMoments {
  import opened TrackGrid

  /** Metric `k`: 0 FA, 1 MD, 2 RD, 3 L1. */
  function Metric(s: Sample, k: int): real
    requires 0 <= k < 4
  {
    if k == 0 then s.fa else if k == 1 then s.md else if k == 2 then Radial(s) else s.l1
  }

  function Zero(): (z: seq<real>)
    ensures |z| == 9 && forall k :: 0 <= k < 9 ==> z[k] == 0.0
  {
    [0.0, 0.0, 0.0, 0.0, 0.0, 0.0, 0.0, 0.0, 0.0]
  }

  function Plus(a: seq<real>, b: seq<real>): (c: seq<real>)
    requires |a| == 9 && |b| == 9
    ensures |c| == 9 && forall k :: 0 <= k < 9 ==> c[k] == a[k] + b[k]
  {
    seq(9, k requires 0 <= k < 9 => a[k] + b[k])
  }

  /** The nine sums after scoring `samples` in order, starting from zero. */
  function Totals(samples: seq<Sample>): (t: seq<real>)
    ensures |t| == 9
  {
    if samples == [] then Zero()
    else Plus(Totals(samples[..|samples| - 1]), Contribution(samples[|samples| - 1]))
  }

  /** Scoring two runs of samples one after the other gives the sum of their totals. */
  lemma {:induction false} TotalsSplit(a: seq<Sample>, b: seq<Sample>)
    ensures Totals(a + b) == Plus(Totals(a), Totals(b))
    decreases |b|
  {
    if b == [] {
      assert a + b == a;
    } else {
      var b' := b[..|b| - 1];
      assert (a + b)[..|a + b| - 1] == a + b';
      TotalsSplit(a, b');
    }
  }

  /** Metric `k` of every sample, in order. */
  function Values(samples: seq<Sample>, k: int): (v: seq<real>)
    requires 0 <= k < 4
    ensures |v| == |samples| && forall i :: 0 <= i < |v| ==> v[i] == Metric(samples[i], k)
  {
    seq(|samples|, i requires 0 <= i < |samples| => Metric(samples[i], k))
  }

  function Sum(xs: seq<real>): real {
    if xs == [] then 0.0 else Sum(xs[..|xs| - 1]) + xs[|xs| - 1]
  }

  function SumSq(xs: seq<real>): real {
    if xs == [] then 0.0 else SumSq(xs[..|xs| - 1]) + Sq(xs[|xs| - 1])
  }

  /** Slots `2k` and `2k + 1` hold the sum and the sum of squares of metric `k`,
      and slot 8 the number of samples. */
  lemma {:induction false} TotalsAreMoments(samples: seq<Sample>, k: int)
    requires 0 <= k < 4
    ensures Totals(samples)[2 * k] == Sum(Values(samples, k))
    ensures Totals(samples)[2 * k + 1] == SumSq(Values(samples, k))
    ensures Totals(samples)[8] == |samples| as real
    decreases |samples|
  {
    if samples != [] {
      var init := samples[..|samples| - 1];
      TotalsAreMoments(init, k);
      assert Values(samples, k)[..|samples| - 1] == Values(init, k);
    }
  }

  /** `sum (x_i - y)^2 >= 0`, written out in the three sums. */
  lemma {:induction false} SpreadNonNegative(xs: seq<real>, y: real)
    ensures SumSq(xs) - 2.0 * y * Sum(xs) + (|xs| as real) * y * y >= 0.0
    decreases |xs|
  {
    if xs != [] {
      var init := xs[..|xs| - 1];
      var x := xs[|xs| - 1];
      SpreadNonNegative(init, y);
      assert (x - y) * (x - y) >= 0.0;
      assert SumSq(xs) - 2.0 * y * Sum(xs) + (|xs| as real) * y * y
          == (SumSq(init) - 2.0 * y * Sum(init) + (|init| as real) * y * y) + (x - y) * (x - y);
    }
  }

  /** `(sum x)^2 <= n * sum x^2`: the variance computed from the sums is never negative. */
  lemma {:induction false} VarianceNonNegative(xs: seq<real>)
    ensures Sum(xs) * Sum(xs) <= (|xs| as real) * SumSq(xs)
    decreases |xs|
  {
    if xs != [] {
      var init := xs[..|xs| - 1];
      var x := xs[|xs| - 1];
      var n := |init| as real;
      VarianceNonNegative(init);
      SpreadNonNegative(init, x);
      assert (n + 1.0) * SumSq(xs) - Sum(xs) * Sum(xs)
          == (n * SumSq(init) - Sum(init) * Sum(init))
             + (SumSq(init) - 2.0 * x * Sum(init) + n * x * x);
    }
  }

  /** For every metric, the accumulated sums admit a real standard deviation:
      `(sum)^2 <= count * (sum of squares)`. */
  lemma MomentsConsistent(samples: seq<Sample>, k: int)
    requires 0 <= k < 4
    ensures Totals(samples)[2 * k] * Totals(samples)[2 * k] <= Totals(samples)[8] * Totals(samples)[2 * k + 1]
  {
    TotalsAreMoments(samples, k);
    VarianceNonNegative(Values(samples, k));
  }

}
