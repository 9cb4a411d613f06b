/** The per-voxel direction field read by the tracer: components 0..2 are the
    principal direction, component 3 the continuation scalar (FA). The two
    storage strategies of DoTrackit.c -- a dense `CC[x][y][z][k]` grid and a
    compacted `CC[ID2[x][y][z]][k]` table -- are two constructions of one lookup. */
module VoxelField {
  import opened Triples

  /** A read-only lookup `(voxel, component) -> value`. */
  type Field = (Triple<int>, int) -> real

  /** Voxel `p` lies inside a grid of `dim` voxels per axis. */
  predicate InGrid(p: Triple<int>, dim: Triple<int>) {
    0 <= p.x < dim.x && 0 <= p.y < dim.y && 0 <= p.z < dim.z
  }

  /** The four components the tracer reads, at a grid voxel. */
  predicate Component(k: int) { 0 <= k < 4 }

  /** `f` and `g` give the same value for every component the tracer reads,
      at every voxel of the grid. */
  ghost predicate AgreeOnGrid(f: Field, g: Field, dim: Triple<int>) {
    forall p: Triple<int>, k: int :: InGrid(p, dim) && Component(k) ==> f(p, k) == g(p, k)
  }

  /** The dense array `CC[x][y][z][k]` has a 4-vector at every grid voxel. */
  predicate DenseShaped(cc: seq<seq<seq<seq<real>>>>, dim: Triple<int>) {
    && |cc| == dim.x
    && (forall x :: 0 <= x < |cc| ==> |cc[x]| == dim.y)
    && (forall x, y :: 0 <= x < |cc| && 0 <= y < |cc[x]| ==> |cc[x][y]| == dim.z)
    && (forall x, y, z :: 0 <= x < |cc| && 0 <= y < |cc[x]| && 0 <= z < |cc[x][y]| ==> |cc[x][y][z]| >= 4)
  }

  /** The index grid `ID2[x][y][z]` names a row of `CC` with a 4-vector at every grid voxel. */
  predicate CompactShaped(ccp: seq<seq<real>>, id2: seq<seq<seq<int>>>, dim: Triple<int>) {
    && |id2| == dim.x
    && (forall x :: 0 <= x < |id2| ==> |id2[x]| == dim.y)
    && (forall x, y :: 0 <= x < |id2| && 0 <= y < |id2[x]| ==> |id2[x][y]| == dim.z)
    && (forall x, y, z :: 0 <= x < |id2| && 0 <= y < |id2[x]| && 0 <= z < |id2[x][y]| ==>
          0 <= id2[x][y][z] < |ccp| && |ccp[id2[x][y][z]]| >= 4)
  }

  /** Dense storage, as `TrackIt` reads it; `0.0` off the array. */
  function DenseField(cc: seq<seq<seq<seq<real>>>>): Field {
    (p: Triple<int>, k: int) =>
      if 0 <= p.x < |cc| && 0 <= p.y < |cc[p.x]| && 0 <= p.z < |cc[p.x][p.y]|
         && 0 <= k < |cc[p.x][p.y][p.z]|
      then cc[p.x][p.y][p.z][k] else 0.0
  }

  /** Compacted storage, as `TrackItP` reads it through `tt = ID2[x][y][z]`; `0.0` off the arrays. */
  function CompactField(ccp: seq<seq<real>>, id2: seq<seq<seq<int>>>): Field {
    (p: Triple<int>, k: int) =>
      if 0 <= p.x < |id2| && 0 <= p.y < |id2[p.x]| && 0 <= p.z < |id2[p.x][p.y]|
         && 0 <= id2[p.x][p.y][p.z] < |ccp| && 0 <= k < |ccp[id2[p.x][p.y][p.z]]|
      then ccp[id2[p.x][p.y][p.z]][k] else 0.0
  }

  lemma DenseFieldAt(cc: seq<seq<seq<seq<real>>>>, dim: Triple<int>, p: Triple<int>, k: int)
    requires DenseShaped(cc, dim) && InGrid(p, dim) && Component(k)
    ensures DenseField(cc)(p, k) == cc[p.x][p.y][p.z][k]
  {
  }

  lemma CompactFieldAt(ccp: seq<seq<real>>, id2: seq<seq<seq<int>>>, dim: Triple<int>, p: Triple<int>, k: int)
    requires CompactShaped(ccp, id2, dim) && InGrid(p, dim) && Component(k)
    ensures CompactField(ccp, id2)(p, k) == ccp[id2[p.x][p.y][p.z]][k]
  {
  }

  /** The two storages hold the same values for every grid voxel. */
  predicate SameValues(cc: seq<seq<seq<seq<real>>>>, ccp: seq<seq<real>>, id2: seq<seq<seq<int>>>, dim: Triple<int>)
    requires DenseShaped(cc, dim) && CompactShaped(ccp, id2, dim)
  {
    forall x, y, z, k :: 0 <= x < dim.x && 0 <= y < dim.y && 0 <= z < dim.z && 0 <= k < 4 ==>
      cc[x][y][z][k] == ccp[id2[x][y][z]][k]
  }

  /** When the dense and the compacted storage hold the same values, the two
      lookups are interchangeable on the grid. */
  lemma StoragesAgree(cc: seq<seq<seq<seq<real>>>>, ccp: seq<seq<real>>, id2: seq<seq<seq<int>>>, dim: Triple<int>)
    requires DenseShaped(cc, dim) && CompactShaped(ccp, id2, dim)
    requires SameValues(cc, ccp, id2, dim)
    ensures AgreeOnGrid(DenseField(cc), CompactField(ccp, id2), dim)
  {
    forall p: Triple<int>, k: int | InGrid(p, dim) && Component(k)
      ensures DenseField(cc)(p, k) == CompactField(ccp, id2)(p, k)
    {
      DenseFieldAt(cc, dim, p, k);
      CompactFieldAt(ccp, id2, dim, p, k);
    }
  }
}
