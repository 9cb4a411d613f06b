/** The deterministic streamline tracer of DoTrackit.c (`TrackIt`, `TrackItP`).
    Its loop is specified as a state machine: `Step` is one pass of the `while`
    body, `Run` iterates it while the loop condition holds, and `Track` is the
    imperative walker whose final state is proved to be `Run` of the seed. */
module Walker {
  import opened Triples
  import opened VoxelField
  import opened StepGeometry
  import opened Tables

  /** Grid geometry and tracking thresholds (`dim`, `Edge`, `minFA`, `maxAng`,
      `arrMax`), the small-component guard `EPS_V`, and whether the field row is
      cached: `TrackItP` reads `CC[tt]` with `tt = ID2[IND]` refreshed only when
      the walk lands inside the grid (`cached`), `TrackIt` reads `CC[IND]`. */
  datatype Config = Config(dim: Triple<int>, edge: Triple<real>, minFA: real, maxAng: real,
                           arrMax: int, eps: real, cached: bool)

  /** The path state: voxel `IND`, the voxel `src` whose field values the loop
      reads (`tt` in `TrackItP`), position `Iam0`, sign `FB`, alignment
      `dotprod`, length `physdist`, and the rows written so far to `T` and `flT`. */
  datatype Walk = Walk(ind: Triple<int>, src: Triple<int>, pos: Triple<real>, fb: int, dot: real, dist: real,
                       path: seq<Triple<int>>, flpath: seq<Triple<real>>)

  /** What a walk returns: its voxel count and `physL`, or the `exit(101)` abort. */
  datatype Outcome = Tracked(len: nat, physL: real) | Aborted

  /** The direction vector at voxel `p`. */
  function Dir(F: Field, p: Triple<int>): Triple<real> {
    Triple(F(p, 0), F(p, 1), F(p, 2))
  }

  /** The state before the first iteration; the alignment is seeded at 0.999. */
  function Start(seed: Triple<int>, phys: Triple<real>, fb: int): Walk {
    Walk(seed, seed, phys, fb, 0.999, 0.0, [], [])
  }

  /** The `while` condition. */
  predicate Continues(F: Field, P: Config, w: Walk) {
    |w.path| < P.arrMax && F(w.src, 3) >= P.minFA && w.dot >= P.maxAng
  }

  /** One pass of the loop body. */
  function Step(F: Field, P: Config, w: Walk): (r: Walk)
    requires P.eps > 0.0 && IsSign(w.fb)
    ensures IsSign(r.fb)
    ensures r.path == w.path + [w.ind] && r.flpath == w.flpath + [w.pos]
  {
    var path := w.path + [w.ind];
    var flpath := w.flpath + [w.pos];
    var c := Dir(F, w.src);
    var s := Params(w.ind, P.edge, w.pos, c, w.fb, P.eps);
    if Walkback(s) then
      Walk(w.ind, w.src, w.pos, w.fb, 0.0, w.dist, path, flpath)
    else
      var m := Corridor(w.pos, w.ind, P.edge, c, w.fb, TravelSigns(c, w.fb), s, Order(s));
      Arrive(F, P, Add(w.ind, m.go), w.src, Advance(w.pos, s.At(m.win), w.fb, c), w.fb, Dir(F, w.ind),
             w.dist + s.At(m.win), path, flpath)
  }

  /** The end of an iteration that moved to voxel `ind` from a voxel with
      direction `prev` (read at `IND - go`, the voxel just left): the bounds
      check, the sign disambiguation and the revisit test. Leaving the grid
      resets `IND` to the origin; `TrackIt` then reads the origin's values,
      `TrackItP` keeps reading its cached row `src`. */
  function Arrive(F: Field, P: Config, ind: Triple<int>, src: Triple<int>, pos: Triple<real>, fb: int,
                  prev: Triple<real>, dist: real, path: seq<Triple<int>>, flpath: seq<Triple<real>>): (r: Walk)
    requires IsSign(fb)
    ensures IsSign(r.fb) && r.path == path && r.flpath == flpath
  {
    if InGrid(ind, P.dim) then
      var d := Disambiguate(Align(Dir(F, ind), fb, prev));
      Walk(ind, ind, pos, d.1, if ind in path then 0.0 else d.0, dist, path, flpath)
    else
      Walk(Triple(0, 0, 0), if P.cached then src else Triple(0, 0, 0), pos, fb, 0.0, dist, path, flpath)
  }

  /** The loop, run to its exit. */
  function Run(F: Field, P: Config, w: Walk): (r: Walk)
    requires P.eps > 0.0 && IsSign(w.fb)
    decreases P.arrMax - |w.path|
  {
    if Continues(F, P, w) then Run(F, P, Step(F, P, w)) else w
  }

  /** The code after the loop: a walk that used up `arrMax` rows aborts. */
  function Finish(P: Config, w: Walk): Outcome {
    if |w.path| >= P.arrMax then Aborted else Tracked(|w.path|, w.dist)
  }

  /** The whole walk from a seed voxel, seed position and initial sign. */
  function Trace(F: Field, P: Config, seed: Triple<int>, phys: Triple<real>, fb: int): Outcome
    requires P.eps > 0.0 && IsSign(fb)
  {
    Finish(P, Run(F, P, Start(seed, phys, fb)))
  }

  // ---------------------------------------------------------------------------
  // Invariants of the state machine

  /** Facts that hold in every reachable state, whatever the thresholds. */
  ghost predicate Sane(P: Config, w: Walk) {
    && IsSign(w.fb)
    && w.dot >= 0.0
    && w.dist >= 0.0
    && InGrid(w.ind, P.dim) && InGrid(w.src, P.dim)
    && (w.dot > 0.0 || !P.cached ==> w.src == w.ind)
    && |w.flpath| == |w.path|
    && (forall k :: 0 <= k < |w.path| ==> InGrid(w.path[k], P.dim))
  }

  /** Two voxels differ and touch (by face, edge or corner). */
  predicate Adjacent(a: Triple<int>, b: Triple<int>) {
    a != b && -1 <= b.x - a.x <= 1 && -1 <= b.y - a.y <= 1 && -1 <= b.z - a.z <= 1
  }

  predicate Distinct(s: seq<Triple<int>>) {
    forall i, j :: 0 <= i < j < |s| ==> s[i] != s[j]
  }

  /** The recorded voxels are pairwise distinct and each steps to a neighbour;
      while the alignment is positive the current voxel is new and adjacent. */
  ghost predicate SelfAvoiding(w: Walk) {
    && Distinct(w.path)
    && (forall k :: 0 <= k < |w.path| - 1 ==> Adjacent(w.path[k], w.path[k + 1]))
    && (w.dot > 0.0 ==> w.ind !in w.path)
    && (w.dot > 0.0 && |w.path| > 0 ==> Adjacent(w.path[|w.path| - 1], w.ind))
  }

  lemma StartInvariants(P: Config, seed: Triple<int>, phys: Triple<real>, fb: int)
    requires InGrid(seed, P.dim) && IsSign(fb)
    ensures Sane(P, Start(seed, phys, fb)) && SelfAvoiding(Start(seed, phys, fb))
  {
  }

  /** The step taken by a non-walkback iteration moves to an adjacent voxel
      and travels a non-negative distance. */
  lemma MoveFacts(F: Field, P: Config, w: Walk)
    requires P.eps > 0.0 && IsSign(w.fb)
    ensures var c := Dir(F, w.src);
      var s := Params(w.ind, P.edge, w.pos, c, w.fb, P.eps);
      var m := Corridor(w.pos, w.ind, P.edge, c, w.fb, TravelSigns(c, w.fb), s, Order(s));
      !Walkback(s) ==> Adjacent(w.ind, Add(w.ind, m.go)) && s.At(m.win) >= 0.0
  {
    var c := Dir(F, w.src);
    var s := Params(w.ind, P.edge, w.pos, c, w.fb, P.eps);
    CorridorStep(w.pos, w.ind, P.edge, c, w.fb, TravelSigns(c, w.fb), s);
  }

  /** Every iteration keeps the state sane. */
  lemma {:induction false} StepSane(F: Field, P: Config, w: Walk)
    requires P.eps > 0.0 && Sane(P, w)
    ensures Sane(P, Step(F, P, w))
  {
    MoveFacts(F, P, w);
    var r := Step(F, P, w);
    forall k | 0 <= k < |r.path| ensures InGrid(r.path[k], P.dim) {
      if k < |w.path| { assert r.path[k] == w.path[k]; }
    }
  }

  /** An iteration entered with a positive threshold keeps the path self-avoiding. */
  lemma {:induction false} StepSelfAvoiding(F: Field, P: Config, w: Walk)
    requires P.eps > 0.0 && P.maxAng > 0.0 && Sane(P, w) && SelfAvoiding(w) && Continues(F, P, w)
    ensures SelfAvoiding(Step(F, P, w))
  {
    MoveFacts(F, P, w);
    var r := Step(F, P, w);
    assert w.ind !in w.path;
    forall i, j | 0 <= i < j < |r.path| ensures r.path[i] != r.path[j] {
      if j < |w.path| { assert r.path[i] == w.path[i] && r.path[j] == w.path[j]; }
      else { assert r.path[j] == w.ind && r.path[i] == w.path[i]; }
    }
    forall k | 0 <= k < |r.path| - 1 ensures Adjacent(r.path[k], r.path[k + 1]) {
      if k + 1 < |w.path| { assert r.path[k] == w.path[k] && r.path[k + 1] == w.path[k + 1]; }
    }
  }

  /** The walk ends in a state where the loop condition fails; the state stays
      sane, the rows already written stay, and at most `arrMax` rows are
      written. With a positive angle threshold the path is also self-avoiding. */
  lemma {:induction false} RunInvariants(F: Field, P: Config, w: Walk)
    requires P.eps > 0.0 && Sane(P, w)
    requires P.maxAng > 0.0 ==> SelfAvoiding(w)
    ensures var r := Run(F, P, w);
      && Sane(P, r) && !Continues(F, P, r)
      && (P.maxAng > 0.0 ==> SelfAvoiding(r))
      && w.path <= r.path && w.flpath <= r.flpath
      && |r.path| <= if |w.path| < P.arrMax then P.arrMax else |w.path|
    decreases P.arrMax - |w.path|
  {
    if Continues(F, P, w) {
      StepSane(F, P, w);
      if P.maxAng > 0.0 { StepSelfAvoiding(F, P, w); }
      RunInvariants(F, P, Step(F, P, w));
    }
  }

  // ---------------------------------------------------------------------------
  // Properties of one iteration

  /** Walkback: when an aimed wall lies behind the position, the iteration
      records the voxel, changes neither `IND`, the read row, `Iam0`, `FB` nor
      `physdist`, and zeroes the alignment, so a positive threshold stops the walk. */
  lemma WalkbackStops(F: Field, P: Config, w: Walk)
    requires P.eps > 0.0 && IsSign(w.fb)
    requires Walkback(Params(w.ind, P.edge, w.pos, Dir(F, w.src), w.fb, P.eps))
    ensures var r := Step(F, P, w);
      r.ind == w.ind && r.src == w.src && r.pos == w.pos && r.fb == w.fb && r.dist == w.dist && r.dot == 0.0
      && (P.maxAng > 0.0 ==> !Continues(F, P, r))
  {
  }

  /** The voxel an iteration moves to, before the bounds check. */
  function NextVoxel(F: Field, P: Config, w: Walk): Triple<int>
    requires P.eps > 0.0 && IsSign(w.fb)
  {
    var c := Dir(F, w.src);
    var s := Params(w.ind, P.edge, w.pos, c, w.fb, P.eps);
    Add(w.ind, Corridor(w.pos, w.ind, P.edge, c, w.fb, TravelSigns(c, w.fb), s, Order(s)).go)
  }

  /** Stepping out of the grid resets `IND` to the origin and zeroes the alignment
      (the read row moves to the origin too, unless it is cached); stepping onto a
      recorded voxel zeroes it too; either stops the walk when the threshold is
      positive. Otherwise both `IND` and the read row move to the new voxel, the
      new sign is -1 exactly when the dot product with the voxel just left is
      negative, and the stored alignment is its absolute value. */
  lemma LandingRules(F: Field, P: Config, w: Walk)
    requires P.eps > 0.0 && IsSign(w.fb)
    requires !Walkback(Params(w.ind, P.edge, w.pos, Dir(F, w.src), w.fb, P.eps))
    ensures var r := Step(F, P, w);
      var n := NextVoxel(F, P, w);
      var d := Align(Dir(F, n), w.fb, Dir(F, w.ind));
      && (!InGrid(n, P.dim) ==> r.ind == Triple(0, 0, 0) && r.dot == 0.0 && r.fb == w.fb)
      && (!InGrid(n, P.dim) ==> r.src == if P.cached then w.src else Triple(0, 0, 0))
      && (InGrid(n, P.dim) && n in w.path + [w.ind] ==> r.ind == n && r.dot == 0.0)
      && (InGrid(n, P.dim) ==> r.ind == n && r.src == n && (r.fb == -1 <==> d < 0.0))
      && (InGrid(n, P.dim) && n !in w.path + [w.ind] ==> r.dot == (if d < 0.0 then -d else d))
      && (P.maxAng > 0.0 && (!InGrid(n, P.dim) || n in w.path + [w.ind]) ==> !Continues(F, P, r))
  {
  }

  // ---------------------------------------------------------------------------
  // Properties of the whole walk

  /** A seed whose scalar is below `minFA` writes no row and returns length 0
      with `physL` 0 (or aborts when `arrMax` leaves no room at all). */
  lemma LowSeedIsEmpty(F: Field, P: Config, seed: Triple<int>, phys: Triple<real>, fb: int)
    requires P.eps > 0.0 && IsSign(fb)
    requires F(seed, 3) < P.minFA
    ensures Run(F, P, Start(seed, phys, fb)).path == []
    ensures Trace(F, P, seed, phys, fb) == if P.arrMax > 0 then Tracked(0, 0.0) else Aborted
  {
  }

  /** What a finished walk guarantees: a returned length is below `arrMax` and
      `physL` is non-negative; the sign is +1 or -1 and the alignment is
      non-negative; every recorded voxel is inside the grid; and with a positive
      angle threshold no voxel is recorded twice and consecutive voxels touch. */
  lemma {:induction false} TraceProperties(F: Field, P: Config, seed: Triple<int>, phys: Triple<real>, fb: int)
    requires P.eps > 0.0 && IsSign(fb) && InGrid(seed, P.dim)
    ensures var r := Run(F, P, Start(seed, phys, fb));
      && (Trace(F, P, seed, phys, fb).Tracked? ==>
            Trace(F, P, seed, phys, fb).len < P.arrMax && Trace(F, P, seed, phys, fb).physL >= 0.0)
      && (Trace(F, P, seed, phys, fb).Aborted? ==> |r.path| == P.arrMax || (P.arrMax <= 0 && r.path == []))
      && IsSign(r.fb) && r.dot >= 0.0 && |r.flpath| == |r.path|
      && (forall k :: 0 <= k < |r.path| ==> InGrid(r.path[k], P.dim))
      && (P.maxAng > 0.0 ==> Distinct(r.path))
      && (P.maxAng > 0.0 ==> forall k :: 0 <= k < |r.path| - 1 ==> Adjacent(r.path[k], r.path[k + 1]))
  {
    StartInvariants(P, seed, phys, fb);
    RunInvariants(F, P, Start(seed, phys, fb));
  }

  /** Every grid voxel carries a direction of length at most 1, as a field of
      unit eigenvectors does; the source relies on this but never checks it. */
  ghost predicate UnitDirections(F: Field, dim: Triple<int>) {
    forall p :: InGrid(p, dim) ==> Norm2(Dir(F, p)) <= 1.0
  }

  /** With unit directions, every iteration leaves the alignment at most 1:
      it is 0, or the absolute dot product of two unit directions. */
  lemma StepAligned(F: Field, P: Config, w: Walk)
    requires P.eps > 0.0 && Sane(P, w) && UnitDirections(F, P.dim)
    ensures Step(F, P, w).dot <= 1.0
  {
    if !Walkback(Params(w.ind, P.edge, w.pos, Dir(F, w.src), w.fb, P.eps)) {
      var n := NextVoxel(F, P, w);
      if InGrid(n, P.dim) {
        AlignBounded(Dir(F, n), w.fb, Dir(F, w.ind));
        LandingRules(F, P, w);
      }
    }
  }

  /** With unit directions the alignment stays in [0, 1] until the loop ends. */
  lemma {:induction false} RunAligned(F: Field, P: Config, w: Walk)
    requires P.eps > 0.0 && Sane(P, w) && UnitDirections(F, P.dim) && w.dot <= 1.0
    ensures 0.0 <= Run(F, P, w).dot <= 1.0
    decreases P.arrMax - |w.path|
  {
    if Continues(F, P, w) {
      StepSane(F, P, w);
      StepAligned(F, P, w);
      RunAligned(F, P, Step(F, P, w));
    }
  }

  /** With unit directions, the alignment of the finished walk, as of every
      state it passes through, lies in [0, 1]. */
  lemma AlignmentInUnitRange(F: Field, P: Config, seed: Triple<int>, phys: Triple<real>, fb: int)
    requires P.eps > 0.0 && IsSign(fb) && InGrid(seed, P.dim) && UnitDirections(F, P.dim)
    ensures 0.0 <= Run(F, P, Start(seed, phys, fb)).dot <= 1.0
  {
    StartInvariants(P, seed, phys, fb);
    RunAligned(F, P, Start(seed, phys, fb));
  }

  /** The walk reads the field only at grid voxels: two lookups that agree on
      the grid give the same walk. */
  lemma {:induction false} RunFieldAgnostic(F: Field, G: Field, P: Config, w: Walk)
    requires P.eps > 0.0 && Sane(P, w) && AgreeOnGrid(F, G, P.dim)
    ensures Run(F, P, w) == Run(G, P, w)
    decreases P.arrMax - |w.path|
  {
    assert F(w.src, 3) == G(w.src, 3);
    if Continues(F, P, w) {
      assert Dir(F, w.src) == Dir(G, w.src) by {
        assert F(w.src, 0) == G(w.src, 0) && F(w.src, 1) == G(w.src, 1) && F(w.src, 2) == G(w.src, 2);
      }
      assert Dir(F, w.ind) == Dir(G, w.ind) by {
        assert F(w.ind, 0) == G(w.ind, 0) && F(w.ind, 1) == G(w.ind, 1) && F(w.ind, 2) == G(w.ind, 2);
      }
      var n := NextVoxel(F, P, w);
      if InGrid(n, P.dim) {
        assert Dir(F, n) == Dir(G, n) by {
          assert F(n, 0) == G(n, 0) && F(n, 1) == G(n, 1) && F(n, 2) == G(n, 2);
        }
      }
      assert Step(F, P, w) == Step(G, P, w);
      StepSane(F, P, w);
      RunFieldAgnostic(F, G, P, Step(F, P, w));
    }
  }

  /** `TrackItP` over compacted storage computes exactly what `TrackIt` computes
      over dense storage holding the same values: same rows of `T` and `flT`,
      same final `IND`, same return value and same `physL`. */
  lemma StorageIndependent(cc: seq<seq<seq<seq<real>>>>, ccp: seq<seq<real>>, id2: seq<seq<seq<int>>>,
                           P: Config, seed: Triple<int>, phys: Triple<real>, fb: int)
    requires DenseShaped(cc, P.dim) && CompactShaped(ccp, id2, P.dim) && SameValues(cc, ccp, id2, P.dim)
    requires P.eps > 0.0 && IsSign(fb) && InGrid(seed, P.dim)
    ensures Run(DenseField(cc), P, Start(seed, phys, fb)) == Run(CompactField(ccp, id2), P, Start(seed, phys, fb))
    ensures Trace(DenseField(cc), P, seed, phys, fb) == Trace(CompactField(ccp, id2), P, seed, phys, fb)
  {
    StoragesAgree(cc, ccp, id2, P.dim);
    StartInvariants(P, seed, phys, fb);
    RunFieldAgnostic(DenseField(cc), CompactField(ccp, id2), P, Start(seed, phys, fb));
  }

  // ---------------------------------------------------------------------------
  // The imperative walker

  /** The rows `0..|path|` of `T` hold `path` (columns 0..2). */
  ghost predicate RowsHold(T: array2<int>, path: seq<Triple<int>>)
    reads T
  {
    |path| <= T.Length0 && 3 <= T.Length1 &&
    forall k, n: Axis :: 0 <= k < |path| ==> T[k, n] == path[k].At(n)
  }

  ghost predicate RealRowsHold(T: array2<real>, path: seq<Triple<real>>)
    reads T
  {
    |path| <= T.Length0 && 3 <= T.Length1 &&
    forall k, n: Axis :: 0 <= k < |path| ==> T[k, n] == path[k].At(n)
  }

  function IndexOf(IND: array<int>): Triple<int>
    requires IND.Length == 3
    reads IND
  {
    Triple(IND[0], IND[1], IND[2])
  }

  /** The cells of `T` outside the first `rows` rows' columns 0..2 are as in `T0`. */
  ghost predicate RestAsBefore<V>(T: array2<V>, T0: seq<seq<V>>, rows: int)
    reads T
  {
    |T0| == T.Length0 && (forall k :: 0 <= k < |T0| ==> |T0[k]| == T.Length1) &&
    forall k, n :: 0 <= k < T.Length0 && 0 <= n < T.Length1 && !(k < rows && n < 3) ==> T[k, n] == T0[k][n]
  }

  /** `T[tracL][n] = IND[n]; flT[tracL][n] = Iam0[n]` for the three axes. */
  method Record(T: array2<int>, flT: array2<real>, tracL: int, cur: Triple<int>, pos: Triple<real>,
                ghost path: seq<Triple<int>>, ghost flpath: seq<Triple<real>>)
    requires tracL == |path| == |flpath| && tracL < T.Length0 && tracL < flT.Length0
    requires RowsHold(T, path) && RealRowsHold(flT, flpath)
    modifies T, flT
    ensures RowsHold(T, path + [cur]) && RealRowsHold(flT, flpath + [pos])
    ensures forall k, n :: 0 <= k < T.Length0 && 0 <= n < T.Length1 && !(k == tracL && n < 3) ==>
              T[k, n] == old(T[k, n])
    ensures forall k, n :: 0 <= k < flT.Length0 && 0 <= n < flT.Length1 && !(k == tracL && n < 3) ==>
              flT[k, n] == old(flT[k, n])
  {
    T[tracL, 0], T[tracL, 1], T[tracL, 2] := cur.x, cur.y, cur.z;
    flT[tracL, 0], flT[tracL, 1], flT[tracL, 2] := pos.x, pos.y, pos.z;
  }

  /** `IND[n] = IND[n] + go[n]` for the three axes. */
  method StepIndex(IND: array<int>, go: Triple<int>)
    requires IND.Length == 3
    modifies IND
    ensures IndexOf(IND) == Add(old(IndexOf(IND)), go)
  {
    for n := 0 to 3
      invariant forall k :: 0 <= k < n ==> IND[k] == old(IND[k]) + go.At(k)
      invariant forall k :: n <= k < 3 ==> IND[k] == old(IND[k])
    {
      IND[n] := IND[n] + go.At(n);
    }
  }

  /** `IND[n] = 0` for the three axes: the walk has left the grid. */
  method ResetIndex(IND: array<int>)
    requires IND.Length == 3
    modifies IND
    ensures IndexOf(IND) == Triple(0, 0, 0)
  {
    for n := 0 to 3
      invariant forall k :: 0 <= k < n ==> IND[k] == 0
    {
      IND[n] := 0;
    }
  }

  /** The alignment sum `sum_n CC[nxt][n] * FB * CC[prev][n]`. */
  method Alignment(F: Field, nxt: Triple<int>, prev: Triple<int>, fb: int) returns (dotprod: real)
    ensures dotprod == (fb as real) * (F(nxt, 0) * F(prev, 0) + F(nxt, 1) * F(prev, 1) + F(nxt, 2) * F(prev, 2))
  {
    dotprod := 0.0;
    for n := 0 to 3
      invariant dotprod == AlignUpTo(Dir(F, nxt), fb, Dir(F, prev), n)
    {
      dotprod := dotprod + F(nxt, n) * (fb as real) * F(prev, n);
    }
    assert dotprod == Align(Dir(F, nxt), fb, Dir(F, prev));
  }

  /** The revisit scan over the first `tracL` rows of `T`: the alignment is
      zeroed exactly when the voxel `p` was recorded before. */
  method ClearIfVisited(p: Triple<int>, T: array2<int>, tracL: int, dotprod: real,
                        ghost path: seq<Triple<int>>)
    returns (d: real)
    requires tracL == |path| && RowsHold(T, path)
    ensures d == if p in path then 0.0 else dotprod
  {
    d := dotprod;
    var k := 0;
    while k < tracL
      invariant 0 <= k <= tracL
      invariant d == if p in path[..k] then 0.0 else dotprod
    {
      assert path[..k + 1] == path[..k] + [path[k]];
      if p.x == T[k, 0] && p.y == T[k, 1] && p.z == T[k, 2] {
        assert path[k] == p;
        d := 0.0;
      }
      k := k + 1;
    }
    assert path[..tracL] == path;
  }

  /** The voxel `p - go`: the one a step by `go` left. */
  function Back(p: Triple<int>, go: Triple<int>): Triple<int> {
    Triple(p.x - go.x, p.y - go.y, p.z - go.z)
  }

  lemma BackAdd(p: Triple<int>, go: Triple<int>)
    ensures Back(Add(p, go), go) == p
  {
  }

  /** The end of an iteration, on the imperative state: `IND` has just been
      stepped by `go`, and `src` is the voxel whose row was read. The new
      position `pos`, length `dist` and rows `path`, `flpath` pass through. */
  method Land(F: Field, P: Config, IND: array<int>, T: array2<int>, tracL: int, go: Triple<int>,
              src: Triple<int>, fb: int, ghost pos: Triple<real>, ghost dist: real,
              ghost path: seq<Triple<int>>, ghost flpath: seq<Triple<real>>)
    returns (src': Triple<int>, fb': int, dotprod': real)
    requires IND.Length == 3 && IsSign(fb)
    requires tracL == |path| && RowsHold(T, path)
    modifies IND
    ensures Arrive(F, P, old(IndexOf(IND)), src, pos, fb, Dir(F, Back(old(IndexOf(IND)), go)), dist, path, flpath)
         == Walk(IndexOf(IND), src', pos, fb', dotprod', dist, path, flpath)
  {
    var nxt := IndexOf(IND);
    if InGrid(nxt, P.dim) {
      src' := nxt;
      var prev := Triple(IND[0] - go.x, IND[1] - go.y, IND[2] - go.z);
      dotprod' := Alignment(F, nxt, prev, fb);
      assert dotprod' == Align(Dir(F, nxt), fb, Dir(F, Back(nxt, go)));
      // the eigenvector sign is ambiguous: keep walking along the orientation that agrees
      if dotprod' < 0.0 {
        dotprod' := -dotprod';
        fb' := -1;
      } else {
        fb' := 1;
      }
      // make sure this voxel has not been recorded before
      dotprod' := ClearIfVisited(nxt, T, tracL, dotprod', path);
    } else {
      // leaving the grid: stop at the next check of the loop condition
      ResetIndex(IND);
      // TrackIt reads the field at IND, now the origin; TrackItP keeps its row tt
      src' := if P.cached then src else Triple(0, 0, 0);
      fb' := fb;
      dotprod' := 0.0;
    }
  }

  /** One pass of the `while` body on the imperative state; `w` is the
      specification state it starts from. */
  method Iteration(F: Field, P: Config, IND: array<int>, T: array2<int>, flT: array2<real>,
                   tracL: int, src: Triple<int>, Iam0: Triple<real>, fb: int, dotprod: real, physdist: real,
                   ghost w: Walk)
    returns (src': Triple<int>, Iam0': Triple<real>, fb': int, dotprod': real, physdist': real)
    requires IND.Length == 3 && P.eps > 0.0 && Sane(P, w)
    requires w == Walk(IndexOf(IND), src, Iam0, fb, dotprod, physdist, w.path, w.flpath)
    requires tracL == |w.path| && tracL < T.Length0 && tracL < flT.Length0
    requires RowsHold(T, w.path) && RealRowsHold(flT, w.flpath)
    modifies IND, T, flT
    ensures Step(F, P, w) == Walk(IndexOf(IND), src', Iam0', fb', dotprod', physdist', w.path + [w.ind], w.flpath + [w.pos])
    ensures RowsHold(T, w.path + [w.ind]) && RealRowsHold(flT, w.flpath + [w.pos])
    ensures forall k, n :: 0 <= k < T.Length0 && 0 <= n < T.Length1 && !(k == tracL && n < 3) ==>
              T[k, n] == old(T[k, n])
    ensures forall k, n :: 0 <= k < flT.Length0 && 0 <= n < flT.Length1 && !(k == tracL && n < 3) ==>
              flT[k, n] == old(flT[k, n])
  {
    var cur := IndexOf(IND);
    ghost var path := w.path + [cur];
    // record the voxel that survived the tests
    Record(T, flT, tracL, cur, Iam0, w.path, w.flpath);
    var c := Dir(F, src);
    var vsign := TravelSigns(c, fb);
    var stest := Params(cur, P.edge, Iam0, c, fb, P.eps);
    if !Walkback(stest) {
      var m := Corridor(Iam0, cur, P.edge, c, fb, vsign, stest, Order(stest));
      // move to the wall of the next voxel
      Iam0' := Advance(Iam0, stest.At(m.win), fb, c);
      StepIndex(IND, m.go);
      var nxt := IndexOf(IND);
      BackAdd(cur, m.go);
      physdist' := physdist + stest.At(m.win);
      ghost var flpath := w.flpath + [Iam0];
      assert Step(F, P, w) == Arrive(F, P, nxt, src, Iam0', fb, Dir(F, Back(nxt, m.go)), physdist', path, flpath);
      src', fb', dotprod' := Land(F, P, IND, T, tracL + 1, m.go, src, fb, Iam0', physdist', path, flpath);
    } else {
      src', Iam0', fb', dotprod', physdist' := src, Iam0, fb, 0.0, physdist;
    }
  }

  /** The state a walk leaves behind: its outcome, the final `IND`, the rows
      of `T` and `flT` it wrote, and every other cell as it was (`T0`, `flT0`). */
  ghost predicate Traced(F: Field, P: Config, seed: Triple<int>, phys: Triple<real>, fb: int,
                         res: Outcome, IND: array<int>, T: array2<int>, flT: array2<real>,
                         T0: seq<seq<int>>, flT0: seq<seq<real>>)
    requires P.eps > 0.0 && IsSign(fb)
    reads IND, T, flT
  {
    var w := Run(F, P, Start(seed, phys, fb));
    && res == Finish(P, w)
    && IND.Length == 3 && IndexOf(IND) == w.ind
    && RowsHold(T, w.path) && RealRowsHold(flT, w.flpath)
    && RestAsBefore(T, T0, |w.path|) && RestAsBefore(flT, flT0, |w.path|)
  }

  /** The walker shared by `TrackIt` and `TrackItP`, over any field lookup.
      It mutates the caller's `IND` and writes rows of `T` and `flT` in place;
      `src` is the voxel whose row the loop reads (`tt` in `TrackItP`). */
  method Track(F: Field, IND: array<int>, PHYSIND: Triple<real>, Edge: Triple<real>, dim: Triple<int>,
               minFA: real, maxAng: real, arrMax: int, T: array2<int>, flT: array2<real>, FB: int,
               eps: real, cached: bool)
    returns (res: Outcome)
    requires IND.Length == 3 && InGrid(IndexOf(IND), dim)
    requires IsSign(FB) && eps > 0.0
    requires arrMax <= T.Length0 && 3 <= T.Length1 && arrMax <= flT.Length0 && 3 <= flT.Length1
    modifies IND, T, flT
    ensures Traced(F, Config(dim, Edge, minFA, maxAng, arrMax, eps, cached), old(IndexOf(IND)), PHYSIND, FB,
                   res, IND, T, flT, old(Cells(T)), old(Cells(flT)))
    ensures res.Tracked? ==> res.len < arrMax && res.physL >= 0.0
  {
    var P := Config(dim, Edge, minFA, maxAng, arrMax, eps, cached);
    ghost var w0 := Start(IndexOf(IND), PHYSIND, FB);
    ghost var T0 := Cells(T);
    ghost var flT0 := Cells(flT);
    StartInvariants(P, IndexOf(IND), PHYSIND, FB);
    var tracL := 0;
    var src := IndexOf(IND);
    var Iam0 := PHYSIND;
    var fb := FB;
    var dotprod := 0.999;
    var physdist := 0.0;
    ghost var w := w0;
    while tracL < arrMax && F(src, 3) >= minFA && dotprod >= maxAng
      invariant w == Walk(IndexOf(IND), src, Iam0, fb, dotprod, physdist, w.path, w.flpath)
      invariant tracL == |w.path| <= (if arrMax < 0 then 0 else arrMax)
      invariant Sane(P, w)
      invariant Run(F, P, w) == Run(F, P, w0)
      invariant RowsHold(T, w.path) && RealRowsHold(flT, w.flpath)
      invariant RestAsBefore(T, T0, tracL) && RestAsBefore(flT, flT0, tracL)
      decreases arrMax - tracL
    {
      StepSane(F, P, w);
      src, Iam0, fb, dotprod, physdist := Iteration(F, P, IND, T, flT, tracL, src, Iam0, fb, dotprod, physdist, w);
      tracL := tracL + 1;
      w := Step(F, P, w);
    }
    RunInvariants(F, P, w0);
    if tracL >= arrMax {
      // the source prints a message and calls exit(101)
      res := Aborted;
    } else {
      res := Tracked(tracL, physdist);
    }
  }

  /** `TrackIt`: the walker over the dense array `CC[x][y][z][k]`, read at `IND`. */
  method TrackIt(CC: seq<seq<seq<seq<real>>>>, IND: array<int>, PHYSIND: Triple<real>, Edge: Triple<real>,
                 dim: Triple<int>, minFA: real, maxAng: real, arrMax: int, T: array2<int>, flT: array2<real>,
                 FB: int, eps: real)
    returns (res: Outcome)
    requires DenseShaped(CC, dim)
    requires IND.Length == 3 && InGrid(IndexOf(IND), dim)
    requires IsSign(FB) && eps > 0.0
    requires arrMax <= T.Length0 && 3 <= T.Length1 && arrMax <= flT.Length0 && 3 <= flT.Length1
    modifies IND, T, flT
    ensures Traced(DenseField(CC), Config(dim, Edge, minFA, maxAng, arrMax, eps, false), old(IndexOf(IND)),
                   PHYSIND, FB, res, IND, T, flT, old(Cells(T)), old(Cells(flT)))
  {
    res := Track(DenseField(CC), IND, PHYSIND, Edge, dim, minFA, maxAng, arrMax, T, flT, FB, eps, false);
  }

  /** `TrackItP`: the walker over the compacted table `CC[ID2[x][y][z]][k]`,
      read through the cached row `tt`, as the source writes it. */
  method TrackItP(CC: seq<seq<real>>, IND: array<int>, PHYSIND: Triple<real>, Edge: Triple<real>,
                  dim: Triple<int>, minFA: real, maxAng: real, arrMax: int, T: array2<int>, flT: array2<real>,
                  FB: int, ID2: seq<seq<seq<int>>>, eps: real)
    returns (res: Outcome)
    requires CompactShaped(CC, ID2, dim)
    requires IND.Length == 3 && InGrid(IndexOf(IND), dim)
    requires IsSign(FB) && eps > 0.0
    requires arrMax <= T.Length0 && 3 <= T.Length1 && arrMax <= flT.Length0 && 3 <= flT.Length1
    modifies IND, T, flT
    ensures Traced(CompactField(CC, ID2), Config(dim, Edge, minFA, maxAng, arrMax, eps, true), old(IndexOf(IND)),
                   PHYSIND, FB, res, IND, T, flT, old(Cells(T)), old(Cells(flT)))
  {
    res := Track(CompactField(CC, ID2), IND, PHYSIND, Edge, dim, minFA, maxAng, arrMax, T, flT, FB, eps, true);
  }

  /** `TrackItP` with `tt` refreshed when `IND` is reset to the origin, so that
      it reads the row of the voxel it stands on, as `TrackIt` does. */
  method TrackItPRefreshed(CC: seq<seq<real>>, IND: array<int>, PHYSIND: Triple<real>, Edge: Triple<real>,
                           dim: Triple<int>, minFA: real, maxAng: real, arrMax: int, T: array2<int>, flT: array2<real>,
                           FB: int, ID2: seq<seq<seq<int>>>, eps: real)
    returns (res: Outcome)
    requires CompactShaped(CC, ID2, dim)
    requires IND.Length == 3 && InGrid(IndexOf(IND), dim)
    requires IsSign(FB) && eps > 0.0
    requires arrMax <= T.Length0 && 3 <= T.Length1 && arrMax <= flT.Length0 && 3 <= flT.Length1
    modifies IND, T, flT
    ensures Traced(CompactField(CC, ID2), Config(dim, Edge, minFA, maxAng, arrMax, eps, false), old(IndexOf(IND)),
                   PHYSIND, FB, res, IND, T, flT, old(Cells(T)), old(Cells(flT)))
  {
    res := Track(CompactField(CC, ID2), IND, PHYSIND, Edge, dim, minFA, maxAng, arrMax, T, flT, FB, eps, false);
  }
}
