/** A bound on the length of a walk: recorded voxels are distinct grid voxels,
    so a walk never records more voxels than the grid has, and an `arrMax`
    larger than the grid never triggers the `exit(101)` abort. */
module WalkBound {
  import opened Triples
  import opened VoxelField
  import opened StepGeometry
  import opened Walker

  /** Number of voxels in the grid. */
  function GridSize(dim: Triple<int>): int {
    dim.x * dim.y * dim.z
  }

  /** Row-major position of voxel `p`. */
  function Linear(p: Triple<int>, dim: Triple<int>): int {
    (p.x * dim.y + p.y) * dim.z + p.z
  }

  /** `q * n + r` with `0 <= r < n` determines `q` and `r`. */
  lemma QuotientUnique(a: int, b: int, r1: int, r2: int, n: int)
    requires n > 0 && 0 <= r1 < n && 0 <= r2 < n && a * n + r1 == b * n + r2
    ensures a == b && r1 == r2
  {
    if a != b {
      var d := if a > b then a - b else b - a;
      AtLeastOnce(d, n);
      assert false;
    }
  }

  lemma AtLeastOnce(d: int, n: int)
    requires d >= 1 && n > 0
    ensures d * n >= n
  {
    assert (d - 1) * n >= 0;
  }

  /** `0 <= q * n + r < m * n` when `0 <= q < m` and `0 <= r < n`. */
  lemma MixedRadixBound(q: int, r: int, m: int, n: int)
    requires 0 <= q < m && 0 <= r < n
    ensures 0 <= q * n + r < m * n
  {
    assert q * n <= (m - 1) * n;
    assert (m - 1) * n == m * n - n;
  }

  lemma LinearInRange(p: Triple<int>, dim: Triple<int>)
    requires InGrid(p, dim)
    ensures 0 <= Linear(p, dim) < GridSize(dim)
  {
    MixedRadixBound(p.x, p.y, dim.x, dim.y);
    MixedRadixBound(p.x * dim.y + p.y, p.z, dim.x * dim.y, dim.z);
  }

  lemma LinearInjective(p: Triple<int>, q: Triple<int>, dim: Triple<int>)
    requires InGrid(p, dim) && InGrid(q, dim) && Linear(p, dim) == Linear(q, dim)
    ensures p == q
  {
    MixedRadixBound(p.x, p.y, dim.x, dim.y);
    MixedRadixBound(q.x, q.y, dim.x, dim.y);
    QuotientUnique(p.x * dim.y + p.y, q.x * dim.y + q.y, p.z, q.z, dim.z);
    QuotientUnique(p.x, q.x, p.y, q.y, dim.y);
  }

  /** A set of integers in `[0, n)` has at most `n` elements. */
  lemma {:induction false} RangeSubsetSize(S: set<int>, n: int)
    requires forall v :: v in S ==> 0 <= v < n
    ensures |S| <= if n < 0 then 0 else n
    decreases if n < 0 then 0 else n
  {
    if n <= 0 {
      assert S == {} by {
        forall v | v in S ensures false { }
      }
    } else {
      var S' := S - {n - 1};
      RangeSubsetSize(S', n - 1);
      assert |S| <= |S'| + 1;
    }
  }

  /** The row-major positions of the first `k` voxels of `path`. */
  ghost function Positions(path: seq<Triple<int>>, dim: Triple<int>, k: nat): set<int>
    requires k <= |path|
  {
    set i | 0 <= i < k :: Linear(path[i], dim)
  }

  /** Distinct grid voxels have distinct positions, so the position set is as large as the path prefix. */
  lemma {:induction false} PositionsSize(path: seq<Triple<int>>, dim: Triple<int>, k: nat)
    requires k <= |path| && Distinct(path)
    requires forall i :: 0 <= i < |path| ==> InGrid(path[i], dim)
    ensures |Positions(path, dim, k)| == k
    ensures forall v :: v in Positions(path, dim, k) ==> 0 <= v < GridSize(dim)
  {
    if k > 0 {
      PositionsSize(path, dim, k - 1);
      var prior := Positions(path, dim, k - 1);
      var v := Linear(path[k - 1], dim);
      assert Positions(path, dim, k) == prior + {v};
      if v in prior {
        var i :| 0 <= i < k - 1 && Linear(path[i], dim) == v;
        LinearInjective(path[i], path[k - 1], dim);
        assert false;
      }
      LinearInRange(path[k - 1], dim);
    }
  }

  /** A path of distinct grid voxels is no longer than the grid has voxels. */
  lemma DistinctPathFitsGrid(path: seq<Triple<int>>, dim: Triple<int>)
    requires Distinct(path)
    requires forall i :: 0 <= i < |path| ==> InGrid(path[i], dim)
    ensures |path| <= GridSize(dim) || path == []
  {
    PositionsSize(path, dim, |path|);
    RangeSubsetSize(Positions(path, dim, |path|), GridSize(dim));
  }

  /** With a positive angle threshold, a walk records at most one row per grid
      voxel, and an `arrMax` above the grid size never makes the walk abort. */
  lemma WalkFitsGrid(F: Field, P: Config, seed: Triple<int>, phys: Triple<real>, fb: int)
    requires P.eps > 0.0 && IsSign(fb) && InGrid(seed, P.dim) && P.maxAng > 0.0
    ensures |Run(F, P, Start(seed, phys, fb)).path| <= GridSize(P.dim)
    ensures P.arrMax > GridSize(P.dim) ==> Trace(F, P, seed, phys, fb).Tracked?
  {
    TraceProperties(F, P, seed, phys, fb);
    var r := Run(F, P, Start(seed, phys, fb));
    DistinctPathFitsGrid(r.path, P.dim);
    LinearInRange(seed, P.dim);
  }
}
