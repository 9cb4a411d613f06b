# Deterministic streamline tracking (AFNI `DoTrackit.c`)

This project models the tracking core of AFNI's FATCAT tools,
`src/ptaylor/DoTrackit.c`, in Dafny and proves properties about it.

- **Streamline walker** (`TrackIt`, `TrackItP`). A ray walks voxel by voxel
  through a 3-D grid. Each voxel holds a principal direction (components 0..2)
  and a continuation scalar, the fractional anisotropy FA (component 3).
  - Every iteration records the current voxel and position.
  - It aims at one wall per axis and computes the parametric distance to each.
  - It stops on a "walkback", i.e. a wall behind the position.
  - The axes are ordered by a fixed three-comparator cascade.
  - A diagonal "corridor" test decides whether one, two or three axes step.
  - After the step, the walker checks the grid bounds, recomputes the
    alignment with the voxel just left (flipping the propagation sign `FB` on
    a negative dot product), and zeroes the alignment on a revisit.
  - The walk continues while the row budget `arrMax`, the FA threshold
    `minFA` and the angle threshold `maxAng` all allow. A walk that fills
    `arrMax` rows aborts the process.
- **ROI label compaction** (`ViveLeRoi`). For each sub-volume ("brik") it
  marks the labels present, rewrites `ROILIST[m][1..M]` in place into their
  ascending list, fills the inverse map `INVLIST[m]`, and stores `M` in
  `NUMROI[m]`.
- **NOT-mask test** (`CheckNotMask`). Whether a voxel lies in a per-network
  or shared exclusion mask.
- **Statistics accumulator** (`ScoreTrackGrid`). Adds FA, MD, RD and L1 and
  their squares, plus a count, into the nine sums of one cell of `PG`.

Both tracer variants are one imperative walker, `Walker.Track`, over an
abstract field lookup. `TrackIt` passes the dense array `CC[x][y][z][k]`;
`TrackItP` passes the compacted table `CC[ID2[x][y][z]][k]`.

The walker is specified by a state machine over values (`Step`, `Run`,
`Trace`). The method's postcondition says that the final `IND`, the rows of
`T` and `flT`, the untouched cells and the result are exactly those of `Run`
from the seed. The remaining properties are lemmas about that state machine.

Positions, directions and sums are `real`. `EPS_V`, the guard against tiny
direction components, is defined in a header that is not part of this model;
it is a parameter `eps > 0`.

## Model

| member | source | states |
|---|---|---|
| Walker.Track | src/ptaylor/DoTrackit.c:137-339 | the loop leaves `IND`, the first rows of `T`/`flT` and the result exactly as the specification walk `Run` from the seed does; every other cell of `T`/`flT` is unchanged; a returned length is below `arrMax` and `physL` is non-negative |
| Walker.TrackIt | src/ptaylor/DoTrackit.c:132-340 | `TrackIt` over a dense field is the walk reading the field at `IND` |
| Walker.TrackItP | src/ptaylor/DoTrackit.c:346-555 | `TrackItP` over a compacted field is the walk reading the cached row `tt`, refreshed only on landing inside the grid |
| Walker.TrackItPRefreshed | src/ptaylor/DoTrackit.c:533-540 | `TrackItP` with `tt` refreshed when `IND` is reset: the walk of `TrackIt` over the compacted field |
| Walker.Start | src/ptaylor/DoTrackit.c:160-165 | the state before the loop: the seed voxel, the seed position `PHYSIND`, alignment 0.999, length 0, no rows |
| Walker.Continues | src/ptaylor/DoTrackit.c:173-174 | the loop condition: fewer than `arrMax` rows, FA of the read row at least `minFA`, alignment at least `maxAng` |
| Walker.Run | src/ptaylor/DoTrackit.c:173-330 | the `while` loop: iterate the body while the condition holds, bounded by `arrMax` |
| Walker.Finish | src/ptaylor/DoTrackit.c:332-339 | the code after the loop: `exit(101)` when `arrMax` rows were written, else the row count and `physL` |
| Walker.Trace | src/ptaylor/DoTrackit.c:137-339 | the whole walk from the seed |
| Walker.Step | src/ptaylor/DoTrackit.c:176-329 | one pass of the loop body (record, walkback test or corridor move, advance, then the bounds branch); it appends exactly the current voxel to `T` and the current position to `flT`, and keeps `FB` a sign |
| Walker.Arrive | src/ptaylor/DoTrackit.c:293-325 | the end of an iteration keeps `FB` a sign and writes no row |
| Walker.StartInvariants | src/ptaylor/DoTrackit.c:160-165 | the initial state (seed voxel, seed position, alignment 0.999) satisfies the walk invariants |
| Walker.MoveFacts | src/ptaylor/DoTrackit.c:216-288 | a non-walkback iteration moves to a touching voxel and travels a non-negative distance |
| Walker.StepSane | src/ptaylor/DoTrackit.c:176-329 | one iteration keeps `FB` in {+1,-1}, the alignment and length non-negative, `IND` and every recorded voxel inside the grid |
| Walker.StepSelfAvoiding | src/ptaylor/DoTrackit.c:313-316 | with `maxAng > 0`, an iteration keeps the recorded voxels pairwise distinct and touching |
| Walker.RunInvariants | src/ptaylor/DoTrackit.c:173-330 | the loop ends in a state where its condition fails, keeps the invariants, never rewrites a recorded row, and writes at most `arrMax` rows |
| Walker.WalkbackStops | src/ptaylor/DoTrackit.c:207-213 | a walkback iteration records the voxel, leaves `IND`, the read row, `Iam0`, `FB` and `physdist` unchanged and zeroes the alignment, ending the walk when `maxAng > 0` |
| Walker.LandingRules | src/ptaylor/DoTrackit.c:293-325 | leaving the grid resets `IND` to the origin with alignment 0; a revisit zeroes the alignment; otherwise `FB` is -1 exactly when the dot product with the voxel left is negative and the alignment is its absolute value |
| Walker.LowSeedIsEmpty | src/ptaylor/DoTrackit.c:173-174 | a seed with FA below `minFA` writes no row and returns 0 with `physL` 0 (or aborts when `arrMax <= 0`) |
| Walker.TraceProperties | src/ptaylor/DoTrackit.c:173-335 | a returned length is below `arrMax` and `physL >= 0`; an abort means `arrMax` rows were written; every recorded voxel is in the grid; with `maxAng > 0` no voxel is recorded twice and consecutive voxels touch |
| Walker.StepAligned | src/ptaylor/DoTrackit.c:298-316 | when every grid direction has length at most 1, an iteration leaves the alignment at most 1 |
| Walker.RunAligned | src/ptaylor/DoTrackit.c:173-330 | with such directions the alignment stays in [0, 1] through the loop |
| Walker.AlignmentInUnitRange | src/ptaylor/DoTrackit.c:298-316 | with such directions the alignment of the finished walk lies in [0, 1] |
| Walker.RunFieldAgnostic | src/ptaylor/DoTrackit.c:318-325 | the walk reads the field only at grid voxels: lookups agreeing on the grid give the same walk |
| Walker.StorageIndependent | src/ptaylor/DoTrackit.c:344-345 | dense and compacted storage holding the same values give the same walk for the same reading discipline |
| Walker.Record | src/ptaylor/DoTrackit.c:178-181 | row `tracL` of `T`/`flT` receives the voxel and the position; no other cell changes |
| Walker.StepIndex | src/ptaylor/DoTrackit.c:285-286 | `IND` becomes `IND + go` |
| Walker.ResetIndex | src/ptaylor/DoTrackit.c:322-323 | `IND` becomes the origin |
| Walker.Alignment | src/ptaylor/DoTrackit.c:298-301 | the loop computes `FB` times the dot product of the new and the previous direction |
| Walker.ClearIfVisited | src/ptaylor/DoTrackit.c:314-316 | the scan zeroes the alignment exactly when the voxel is among the recorded rows |
| Walker.Land | src/ptaylor/DoTrackit.c:293-325 | the bounds branch sets `IND`, the read row, `FB` and the alignment as the specification `Arrive` does |
| Walker.Iteration | src/ptaylor/DoTrackit.c:176-329 | one pass of the loop body takes the imperative state to `Step` of the specification state and writes only row `tracL` |
| StepGeometry.MarginsOrdered | src/ptaylor/DoTrackit.c:157-158 | the corridor margins satisfy `0 < AA < 1/2 < BB < 1` and `AA + BB = 1` |
| StepGeometry.Wall | src/ptaylor/DoTrackit.c:188-195 | `targedge[n]`: the upper wall `(IND[n]+1)*Edge[n]` when travelling up, the lower wall `IND[n]*Edge[n]` otherwise |
| StepGeometry.TravelSign | src/ptaylor/DoTrackit.c:188-195 | `vsign[n]` is +1 exactly when `FB * CC[n] >= 0`, else -1 |
| StepGeometry.TravelSigns | src/ptaylor/DoTrackit.c:185-196 | each axis gets its travel sign |
| StepGeometry.Divisor | src/ptaylor/DoTrackit.c:201-204 | the divisor is never zero and is positive exactly when the travel sign is +1 |
| StepGeometry.Param | src/ptaylor/DoTrackit.c:199-206 | `stest[n] < 0` exactly when the aimed wall lies behind the position |
| StepGeometry.Params | src/ptaylor/DoTrackit.c:200-206 | each axis gets its parametric distance |
| StepGeometry.Walkback | src/ptaylor/DoTrackit.c:207-213 | the walkback flag: some `stest[n]` is negative |
| StepGeometry.Order | src/ptaylor/DoTrackit.c:217-233 | `ord` is a permutation of {0,1,2} with `stest[ord[0]] <= stest[ord[1]] <= stest[ord[2]]` |
| StepGeometry.OrderTieExample | src/ptaylor/DoTrackit.c:220-233 | ties are not broken lowest-axis-first: `stest = [1,1,0]` gives `ord = [2,1,0]` |
| StepGeometry.OrderUnique | src/ptaylor/DoTrackit.c:217-233 | without ties the cascade yields the unique ascending order |
| StepGeometry.Offset | src/ptaylor/DoTrackit.c:239-267 | `test[n]`: the projected position relative to the lower wall of voxel `IND[n] + go[n]` after travelling `stest` |
| StepGeometry.Overshoots | src/ptaylor/DoTrackit.c:243-261 | the projection passed the far margin `Edge*BB` (up) or `Edge*AA` (down) |
| StepGeometry.NearEntry | src/ptaylor/DoTrackit.c:250-273 | the projection is still within the near margin `Edge*AA` (up) or `Edge*BB` (down) of the next voxel |
| StepGeometry.Corridor | src/ptaylor/DoTrackit.c:235-279 | the nearest axis always steps by its travel sign; the others step by their sign or not at all; the third steps only if the second does; `win` is the farthest stepped axis in cascade order |
| StepGeometry.CorridorStep | src/ptaylor/DoTrackit.c:235-279 | every `go[n]` is in {-1,0,1}, `go` is non-zero, and `stest[win]` is the largest distance among the stepped axes |
| StepGeometry.Advance | src/ptaylor/DoTrackit.c:283-284 | each position component moves by `s * FB * CC[n]` |
| StepGeometry.Align | src/ptaylor/DoTrackit.c:298-301 | the accumulated sum equals `FB` times the dot product |
| StepGeometry.DotBounded | src/ptaylor/DoTrackit.c:298-301 | for directions of length at most 1 the dot product lies in [-1, 1] |
| StepGeometry.AlignBounded | src/ptaylor/DoTrackit.c:298-301 | for such directions `FB` times the dot product lies in [-1, 1] |
| StepGeometry.Disambiguate | src/ptaylor/DoTrackit.c:306-311 | the stored alignment is the absolute value and the sign is -1 exactly for a negative dot product |
| WalkBound.WalkFitsGrid | src/ptaylor/DoTrackit.c:332-335 | with `maxAng > 0` a walk records at most one row per grid voxel, so an `arrMax` above the grid size never aborts |
| VoxelField.DenseField | src/ptaylor/DoTrackit.c:173 | `TrackIt`'s read `CC[IND[0]][IND[1]][IND[2]][k]` |
| VoxelField.CompactField | src/ptaylor/DoTrackit.c:378 | `TrackItP`'s read `CC[ID2[IND[0]][IND[1]][IND[2]]][k]` |
| VoxelField.StoragesAgree | src/ptaylor/DoTrackit.c:344-345 | dense and compacted storage holding the same values are the same lookup on the grid |
| VoxelField.DenseFieldAt | src/ptaylor/DoTrackit.c:173 | the dense lookup at a grid voxel is `CC[x][y][z][k]` |
| VoxelField.CompactFieldAt | src/ptaylor/DoTrackit.c:378 | the compacted lookup at a grid voxel is `CC[ID2[x][y][z]][k]` |
| CachedRow.CacheInvisible | src/ptaylor/DoTrackit.c:533-540 | with `maxAng > 0`, reading the cached row or the row at `IND` gives the same observable walk |
| CachedRow.StepShown | src/ptaylor/DoTrackit.c:533-540 | from the same state, one iteration that keeps `tt` and one that reads at `IND` differ only in the row being read |
| CachedRow.CachedAgreesWhenPositive | src/ptaylor/DoTrackit.c:388-389 | with `maxAng > 0`, `TrackItP` over compacted storage and `TrackIt` over dense storage with the same values write the same rows, leave the same `IND` and return the same outcome |
| CachedRow.DenseWalk | src/ptaylor/DoTrackit.c:318-325 | on the two-voxel example `TrackIt` reads the origin after leaving the grid and returns length 1, `physL` 0.5 |
| CachedRow.CachedWalk | src/ptaylor/DoTrackit.c:533-540 | on the same example `TrackItP` keeps reading the row it left and aborts |
| CachedRow.CachedRowDiverges | src/ptaylor/DoTrackit.c:533-540 | there are storages holding the same values on which `TrackIt` and `TrackItP` give different outcomes |
| RoiLabels.LabelOf | src/ptaylor/DoTrackit.c:41 | the label `(int)` of a voxel value above 0.5, its floor |
| RoiLabels.Carries | src/ptaylor/DoTrackit.c:40-41 | some voxel of the brik has a value above 0.5 whose label is the given one |
| RoiLabels.Present | src/ptaylor/DoTrackit.c:48-56 | the list of present labels in `1..n` has at most `n` entries, each in `1..n` |
| RoiLabels.PresentCarried | src/ptaylor/DoTrackit.c:38-42 | every listed label is carried by a voxel with value above 0.5 |
| RoiLabels.PresentAscending | src/ptaylor/DoTrackit.c:50-55 | the listed labels are strictly ascending |
| RoiLabels.PresentComplete | src/ptaylor/DoTrackit.c:48-56 | every carried label in `1..n` is listed |
| RoiLabels.Marked | src/ptaylor/DoTrackit.c:38-42 | after marking, a carried label's cell is 1 and every other cell is as before |
| RoiLabels.CompactedInverse | src/ptaylor/DoTrackit.c:48-56 | each carried label `l` sits at position `INVLIST[m][l]` in `1..M`, each position `t` maps back (`INVLIST[m][ROILIST[m][t]] == t`), and the list ascends |
| RoiLabels.MarkBrik | src/ptaylor/DoTrackit.c:39-42 | the marking pass turns a brik's row into its marked row and leaves other rows unchanged |
| RoiLabels.MarkAll | src/ptaylor/DoTrackit.c:38-42 | every brik's row becomes its marked row; rows beyond the briks are unchanged |
| RoiLabels.CompactLoop | src/ptaylor/DoTrackit.c:49-56 | the in-place rewrite lists the present labels at `1..M`, sets their inverse, returns `j = M + 1`, and changes nothing else |
| RoiLabels.Visit | src/ptaylor/DoTrackit.c:51-55 | one pass at label `i` places it at position `j <= i` when marked, keeping the list, inverse and untouched cells of the loop state |
| RoiLabels.Place | src/ptaylor/DoTrackit.c:52-53 | `ROILIST[m][j] = i` and `INVLIST[m][i] = j`, nothing else |
| RoiLabels.CompactBrik | src/ptaylor/DoTrackit.c:48-56 | a brik's rows end up compacted and other rows are unchanged |
| RoiLabels.ViveLeRoi | src/ptaylor/DoTrackit.c:27-66 | returns 1 exactly when no brik declares a negative maximum label (else the `ERROR_exit`); on 1, `NUMROI[m]` is the number of present labels and at most `INVROI[m]`, and the rows are compacted from the marked rows |
| NotMask.CheckNotMask | src/ptaylor/DoTrackit.c:73-85 | the result is in {0,1}; it is 1 exactly when `amask[id][br]` (with `AO`) or `amask[id][0]` (without) is non-zero |
| NotMask.SharedMaskIgnoresNetwork | src/ptaylor/DoTrackit.c:80-82 | with a shared mask the result does not depend on the network index |
| NotMask.OnlyOwnRow | src/ptaylor/DoTrackit.c:73-85 | only voxel `id`'s mask row is consulted |
| TrackGrid.Radial | src/ptaylor/DoTrackit.c:107-108 | `READS_fl = 0.5*(3 MD - L1)` |
| TrackGrid.Contribution | src/ptaylor/DoTrackit.c:99-117 | one sample contributes nine values |
| TrackGrid.ScoreTrackGrid | src/ptaylor/DoTrackit.c:92-120 | slots 0..8 of `PG[h][C][B]` grow by FA, FA², MD, MD², RD, RD², L1, L1² and 1 with `RD = 0.5 * (3 MD - L1)`; every other cell is unchanged; returns 1 |
| GridMoments.Totals | src/ptaylor/DoTrackit.c:99-117 | the sums after scoring a sequence of samples from zero |
| GridMoments.TotalsSplit | src/ptaylor/DoTrackit.c:99-117 | scoring two runs one after the other sums their totals, so partial accumulators merge by addition |
| GridMoments.TotalsAreMoments | src/ptaylor/DoTrackit.c:98-117 | slots `2k` and `2k+1` hold the sum and the sum of squares of metric `k`; slot 8 holds the sample count |
| GridMoments.VarianceNonNegative | src/ptaylor/DoTrackit.c:98 | `(sum x)^2 <= n * sum x^2` |
| GridMoments.MomentsConsistent | src/ptaylor/DoTrackit.c:98-117 | for every metric the accumulated sums admit a real standard deviation |

## Left out

- `THD_get_voxel`, `DSET_NVALS` and `DSET_NVOX` read AFNI datasets. The model uses plain sequences: one of voxel values per brik for `ViveLeRoi`, and the three values sampled at `idx` for `ScoreTrackGrid`.
- `EPS_V` comes from a header that is not part of this model. It is a parameter, required to be positive.
- IEEE single-precision rounding, the `(float)` casts and `pow` are not modelled. Arithmetic is exact over `real`, `FF` is exactly 0.4143, and `pow(x, 2)` is `x * x`.
- The `stderr` message and `exit(101)` of a walk that fills `arrMax` rows become the result `Aborted`.
- The `ERROR_exit` of `ViveLeRoi` becomes the return value 0. It ends the call at the first offending brik: every brik has been marked by then, but later briks are not compacted, and the contract says nothing about the rows in that case.
- `physL` is returned inside `Tracked` rather than written through a pointer.
- The `ENTRY`/`RETURN` tracing macros are not modelled.
- Walker.Track: `FB` must be +1 or -1. For `FB = 0` the source divides by zero at the first large component.
- Walker.TraceProperties: states the alignment as non-negative only. The upper bound 1 needs every direction to have length at most 1, which the code assumes of its eigenvector field but never checks; Walker.AlignmentInUnitRange proves the bound under that hypothesis.
- Walker.Track: `T` and `flT` must have at least `arrMax` rows, and `IND` must start inside the grid. These are caller guarantees the source does not check.
- RoiLabels.ViveLeRoi: requires `ROILIST` to be zero on `1..INVROI[m]` before the call, the freshly allocated state its callers provide. It also requires every label to fit in a row of `ROILIST`.
- RoiLabels.ViveLeRoi: a value in `(0.5, 1)` marks cell 0, as `(int)` truncates. The compaction never reads cell 0, and the model keeps this.
- `src/Deconvolve.c` and `src/SUMA/SUMA_inspec.c` are not part of this model.

The `ViveLeRoi` error message speaks of a bad label count. The compaction only scans labels `1..INVROI[m]`, so it never counts more labels than `INVROI[m]`; the test `INVROI[m] < j-1` at :58 holds exactly when `INVROI[m]` is negative.

## Findings

| source | as written | input that shows it | evidently intended | confidence | as-written member | corrected member |
|---|---|---|---|---|---|---|
| src/ptaylor/DoTrackit.c:533-540 | when a step leaves the grid, `TrackItP` resets `IND` to the origin but keeps `tt`, so the next loop test reads the FA of the voxel just left, not of the origin as `TrackIt` does at :318-325 | a grid of 2x1x1 unit voxels; voxel (1,0,0) points along +x with FA 1 and the origin is all 0; `minFA` 0.5, `maxAng` 0, `arrMax` 3, `EPS_V` 0.01; seed (1,0,0) at (1.5,0.5,0.5), `FB` 1: `TrackIt` returns 1 with `physL` 0.5, while `TrackItP` walks back twice from the origin and calls `exit(101)` | `tt` follows `IND` ("tt changes when INDs do", :378), so both variants give the same result on the same values: the corrected walk agrees with `TrackIt` on every input (Walker.StorageIndependent), and the written one only when `maxAng > 0` (CachedRow.CachedAgreesWhenPositive) | low: requires `maxAng <= 0`; not executed | CachedRow.CachedRowDiverges | Walker.TrackItPRefreshed |
