/** `TrackItP` caches the field row `tt = ID2[IND]` and refreshes it only when
    the walk lands inside the grid; when the walk leaves the grid it resets
    `IND` to the origin but keeps `tt`. This module shows that the cache is
    invisible when the angle threshold is positive, and exhibits a walk with a
    non-positive threshold on which `TrackItP` and `TrackIt` part ways. */
module CachedRow {
  import opened Triples
  import opened VoxelField
  import opened StepGeometry
  import opened Walker

  /** The walk as the caller sees it (`T`, `flT`, `IND`, `physL`, the return
      value): the row being read is forgotten. */
  function Shown(w: Walk): (v: Walk)
    ensures v.ind == w.ind && v.path == w.path && v.flpath == w.flpath && v.dist == w.dist
    ensures v.src == w.ind
  {
    w.(src := w.ind)
  }

  /** With a positive threshold, a walk that reads the cached row shows the
      same states as one that reads the row at `IND`: after a reset to the
      origin the alignment is 0, so neither walk takes another step. */
  lemma {:induction false} CacheInvisible(F: Field, P: Config, w1: Walk, w2: Walk)
    requires P.eps > 0.0 && P.maxAng > 0.0
    requires Sane(P.(cached := true), w1) && Sane(P.(cached := false), w2) && Shown(w1) == Shown(w2)
    ensures Shown(Run(F, P.(cached := true), w1)) == Shown(Run(F, P.(cached := false), w2))
    decreases P.arrMax - |w1.path|
  {
    var Pc := P.(cached := true);
    var Pu := P.(cached := false);
    if Continues(F, Pc, w1) {
      assert w1 == w2;
      StepSane(F, Pc, w1);
      StepSane(F, Pu, w2);
      StepShown(F, P, w1);
      CacheInvisible(F, P, Step(F, Pc, w1), Step(F, Pu, w2));
    } else {
      assert !Continues(F, Pu, w2);
    }
  }

  /** From the same state, one iteration of either discipline shows the same state. */
  lemma StepShown(F: Field, P: Config, w: Walk)
    requires P.eps > 0.0 && IsSign(w.fb)
    ensures Shown(Step(F, P.(cached := true), w)) == Shown(Step(F, P.(cached := false), w))
  {
    assert P.(cached := true).dim == P.(cached := false).dim;
  }

  /** With a positive threshold, `TrackItP` over compacted storage and
      `TrackIt` over dense storage holding the same values write the same rows,
      leave the same `IND` and return the same outcome. */
  lemma CachedAgreesWhenPositive(cc: seq<seq<seq<seq<real>>>>, ccp: seq<seq<real>>, id2: seq<seq<seq<int>>>,
                                 P: Config, seed: Triple<int>, phys: Triple<real>, fb: int)
    requires DenseShaped(cc, P.dim) && CompactShaped(ccp, id2, P.dim) && SameValues(cc, ccp, id2, P.dim)
    requires P.eps > 0.0 && P.maxAng > 0.0 && IsSign(fb) && InGrid(seed, P.dim)
    ensures Shown(Run(DenseField(cc), P.(cached := false), Start(seed, phys, fb)))
         == Shown(Run(CompactField(ccp, id2), P.(cached := true), Start(seed, phys, fb)))
    ensures Trace(DenseField(cc), P.(cached := false), seed, phys, fb)
         == Trace(CompactField(ccp, id2), P.(cached := true), seed, phys, fb)
  {
    var Pc := P.(cached := true);
    var Pu := P.(cached := false);
    StorageIndependent(cc, ccp, id2, Pc, seed, phys, fb);
    StartInvariants(Pc, seed, phys, fb);
    StartInvariants(Pu, seed, phys, fb);
    CacheInvisible(DenseField(cc), P, Start(seed, phys, fb), Start(seed, phys, fb));
  }

  // ---------------------------------------------------------------------------
  // A walk on which the cached row shows

  /** Two voxels along x: the origin has scalar 0, voxel (1, 0, 0) points along +x with scalar 1. */
  const Dense: seq<seq<seq<seq<real>>>> := [[[[0.0, 0.0, 0.0, 0.0]]], [[[1.0, 0.0, 0.0, 1.0]]]]
  const Rows: seq<seq<real>> := [[0.0, 0.0, 0.0, 0.0], [1.0, 0.0, 0.0, 1.0]]
  const Index: seq<seq<seq<int>>> := [[[0]], [[1]]]

  /** Unit voxels, `minFA` 0.5, a threshold of 0, room for three rows. */
  function Setting(cached: bool): Config {
    Config(Triple(2, 1, 1), Triple(1.0, 1.0, 1.0), 0.5, 0.0, 3, 0.01, cached)
  }

  lemma SettingShapes()
    ensures DenseShaped(Dense, Setting(false).dim) && CompactShaped(Rows, Index, Setting(true).dim)
    ensures SameValues(Dense, Rows, Index, Setting(true).dim)
  {
    forall x, y, z | 0 <= x < 2 && 0 <= y < 1 && 0 <= z < 1
      ensures 0 <= Index[x][y][z] < |Rows| && |Rows[Index[x][y][z]]| >= 4
    {
      assert y == 0 && z == 0;
      if x == 0 { } else { }
    }
    forall x, y, z, k | 0 <= x < 2 && 0 <= y < 1 && 0 <= z < 1 && 0 <= k < 4
      ensures Dense[x][y][z][k] == Rows[Index[x][y][z]][k]
    {
      assert y == 0 && z == 0;
      if x == 0 { } else { }
    }
  }

  /** The first iteration from the seed, with either way of reading the field:
      one row, then a step along +x out of the grid. */
  lemma FirstStep(F: Field, P: Config)
    requires F(Triple(1, 0, 0), 0) == 1.0 && F(Triple(1, 0, 0), 1) == 0.0 && F(Triple(1, 0, 0), 2) == 0.0
    requires P.dim == Triple(2, 1, 1) && P.edge == Triple(1.0, 1.0, 1.0) && P.eps == 0.01
    ensures Step(F, P, Start(Triple(1, 0, 0), Triple(1.5, 0.5, 0.5), 1))
         == Walk(Triple(0, 0, 0), if P.cached then Triple(1, 0, 0) else Triple(0, 0, 0), Triple(2.0, 0.5, 0.5),
                 1, 0.0, 0.5, [Triple(1, 0, 0)], [Triple(1.5, 0.5, 0.5)])
  {
    var seed := Triple(1, 0, 0);
    var phys := Triple(1.5, 0.5, 0.5);
    var c := Triple(1.0, 0.0, 0.0);
    assert Dir(F, seed) == c;
    var s := Params(seed, P.edge, phys, c, 1, P.eps);
    assert s == Triple(0.5, 50.0, 50.0);
    assert Order(s) == Triple(0, 1, 2);
    MarginsOrdered();
    var m := Corridor(phys, seed, P.edge, c, 1, TravelSigns(c, 1), s, Order(s));
    assert m == Move(Triple(1, 0, 0), 0);
    assert Advance(phys, 0.5, 1, c) == Triple(2.0, 0.5, 0.5);
  }

  /** `TrackIt` reads the origin's scalar 0 after the reset and stops. */
  lemma DenseWalk()
    ensures Trace(DenseField(Dense), Setting(false), Triple(1, 0, 0), Triple(1.5, 0.5, 0.5), 1) == Tracked(1, 0.5)
  {
    var D := DenseField(Dense);
    var w0 := Start(Triple(1, 0, 0), Triple(1.5, 0.5, 0.5), 1);
    FirstStep(D, Setting(false));
    assert D(Triple(0, 0, 0), 3) == 0.0;
    assert Run(D, Setting(false), w0) == Step(D, Setting(false), w0);
  }

  /** `TrackItP` still reads the seed's row after the reset: from the origin
      that row aims at a wall behind the position, so every further iteration
      is a walkback that records the origin again, until `arrMax` rows are
      written. */
  lemma CachedWalk()
    ensures Trace(CompactField(Rows, Index), Setting(true), Triple(1, 0, 0), Triple(1.5, 0.5, 0.5), 1) == Aborted
  {
    var C := CompactField(Rows, Index);
    var P := Setting(true);
    var seed := Triple(1, 0, 0);
    var origin := Triple(0, 0, 0);
    var phys := Triple(1.5, 0.5, 0.5);
    var out := Triple(2.0, 0.5, 0.5);
    var w0 := Start(seed, phys, 1);
    FirstStep(C, P);
    var w1 := Walk(origin, seed, out, 1, 0.0, 0.5, [seed], [phys]);
    assert C(seed, 3) == 1.0;
    assert Dir(C, seed) == Triple(1.0, 0.0, 0.0);
    assert Params(origin, P.edge, out, Dir(C, seed), 1, P.eps).x == -1.0;
    var w2 := Walk(origin, seed, out, 1, 0.0, 0.5, [seed, origin], [phys, out]);
    var w3 := Walk(origin, seed, out, 1, 0.0, 0.5, [seed, origin, origin], [phys, out, out]);
    assert Step(C, P, w1) == w2;
    assert Step(C, P, w2) == w3;
    assert Run(C, P, w2) == w3;
    assert Run(C, P, w0) == w3;
  }

  /** Seeded in the middle of voxel (1, 0, 0), the walk leaves the grid through
      its +x face after one row. With the same values in both storages,
      `TrackIt` returns length 1 with `physL` 0.5, while `TrackItP` aborts with
      `exit(101)`. */
  lemma CachedRowDiverges()
    ensures DenseShaped(Dense, Setting(false).dim) && CompactShaped(Rows, Index, Setting(true).dim)
    ensures SameValues(Dense, Rows, Index, Setting(true).dim)
    ensures Trace(DenseField(Dense), Setting(false), Triple(1, 0, 0), Triple(1.5, 0.5, 0.5), 1)
         != Trace(CompactField(Rows, Index), Setting(true), Triple(1, 0, 0), Triple(1.5, 0.5, 0.5), 1)
  {
    SettingShapes();
    DenseWalk();
    CachedWalk();
  }
}
