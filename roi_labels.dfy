/** ROI label compaction (`ViveLeRoi` in DoTrackit.c). Each sub-volume ("brik")
    of an ROI dataset carries integer labels up to a declared maximum
    `INVROI[m]`; the labels actually present are listed in ascending order in
    `ROILIST[m][1..M]`, `INVLIST[m][label]` gives each one's position in that
    list, and `NUMROI[m] = M`. The dataset is a sequence of voxel values per
    brik, and reading a voxel is indexing. */
module RoiLabels {
  import opened Tables

  /** The label a voxel value `v > 0.5` marks: the C cast `(int) v`, which for a
      positive value is its floor. */
  function LabelOf(v: real): int {
    v.Floor
  }

  /** Some voxel of the brik has a value above 0.5 that marks `label`. */
  predicate Carries(vox: seq<real>, roi: int) {
    exists i | 0 <= i < |vox| :: vox[i] > 0.5 && LabelOf(vox[i]) == roi
  }

  /** The labels in `1..n` carried by the brik, in ascending order: what
      `ROILIST[m][1..M]` holds after compaction. */
  function Present(vox: seq<real>, n: int): (r: seq<int>)
    ensures |r| <= if n < 0 then 0 else n
    ensures forall k :: 0 <= k < |r| ==> 1 <= r[k] <= n
    decreases n
  {
    if n <= 0 then [] else Present(vox, n - 1) + (if Carries(vox, n) then [n] else [])
  }

  /** Every listed label is carried by some voxel. */
  lemma {:induction false} PresentCarried(vox: seq<real>, n: int)
    ensures forall k :: 0 <= k < |Present(vox, n)| ==> Carries(vox, Present(vox, n)[k])
    decreases n
  {
    if n > 0 {
      PresentCarried(vox, n - 1);
    }
  }

  /** The list is strictly ascending, so no label is listed twice. */
  lemma {:induction false} PresentAscending(vox: seq<real>, n: int)
    ensures forall k, l :: 0 <= k < l < |Present(vox, n)| ==> Present(vox, n)[k] < Present(vox, n)[l]
    decreases n
  {
    if n > 0 {
      PresentAscending(vox, n - 1);
    }
  }

  /** Every carried label in `1..n` is listed. */
  lemma {:induction false} PresentComplete(vox: seq<real>, n: int)
    ensures forall roi :: 1 <= roi <= n && Carries(vox, roi) ==> roi in Present(vox, n)
    decreases n
  {
    if n > 0 {
      PresentComplete(vox, n - 1);
      assert forall roi :: roi in Present(vox, n - 1) ==> roi in Present(vox, n);
    }
  }

  /** Row `row` after the marking pass of a brik: 1 at every carried label,
      every other cell as before. */
  function Marked(row: seq<int>, vox: seq<real>): (r: seq<int>)
    ensures |r| == |row|
    ensures forall k :: 0 <= k < |r| && Carries(vox, k) ==> r[k] == 1
    ensures forall k :: 0 <= k < |r| && !Carries(vox, k) ==> r[k] == row[k]
  {
    seq(|row|, k requires 0 <= k < |row| => if Carries(vox, k) then 1 else row[k])
  }

  /** A brik's `ROILIST` row `row` and `INVLIST` row `inv` after compaction,
      against the marked row `marked` and the prior `inv0`: positions `1..count`
      list the present labels in ascending order, `inv` maps each listed label to
      its position, and every other cell is as it was. */
  ghost predicate RowCompacted(row: seq<int>, inv: seq<int>, vox: seq<real>, maxLabel: int, count: int,
                               marked: seq<int>, inv0: seq<int>)
  {
    var labels := Present(vox, maxLabel);
    && |row| == |marked| && |inv| == |inv0|
    && count == |labels| && (count > 0 ==> count < |row|)
    && (forall t :: 0 <= t < count ==> t + 1 < |row| && row[t + 1] == labels[t])
    && (forall k :: 0 <= k < |row| && !(1 <= k <= count) ==> row[k] == marked[k])
    && (forall t :: 0 <= t < count ==> labels[t] < |inv| && inv[labels[t]] == t + 1)
    && (forall k :: 0 <= k < |inv| && k !in labels ==> inv[k] == inv0[k])
  }

  /** `INVLIST` inverts `ROILIST`: every label in `1..maxLabel` carried by the
      brik sits at position `inv[l]` in `1..count`, and every listed position
      maps back to itself. */
  lemma CompactedInverse(row: seq<int>, inv: seq<int>, vox: seq<real>, maxLabel: int, count: int,
                         marked: seq<int>, inv0: seq<int>)
    requires RowCompacted(row, inv, vox, maxLabel, count, marked, inv0)
    ensures forall l :: 1 <= l <= maxLabel && Carries(vox, l) ==>
              0 <= l < |inv| && 1 <= inv[l] <= count && row[inv[l]] == l
    ensures forall t :: 1 <= t <= count ==>
              (1 <= row[t] <= maxLabel && Carries(vox, row[t]) && 0 <= row[t] < |inv| && inv[row[t]] == t)
    ensures forall t, u :: 1 <= t < u <= count ==> row[t] < row[u]
  {
    var labels := Present(vox, maxLabel);
    PresentCarried(vox, maxLabel);
    PresentComplete(vox, maxLabel);
    PresentAscending(vox, maxLabel);
    forall l | 1 <= l <= maxLabel && Carries(vox, l)
      ensures 0 <= l < |inv| && 1 <= inv[l] <= count && row[inv[l]] == l
    {
      var t :| 0 <= t < |labels| && labels[t] == l;
    }
    forall t | 1 <= t <= count
      ensures 1 <= row[t] <= maxLabel && Carries(vox, row[t]) && 0 <= row[t] < |inv| && inv[row[t]] == t
    {
      assert row[(t - 1) + 1] == labels[t - 1];
    }
    forall t, u | 1 <= t < u <= count ensures row[t] < row[u] {
      assert row[(t - 1) + 1] == labels[t - 1];
      assert row[(u - 1) + 1] == labels[u - 1];
    }
  }

  /** The marking pass over one brik: `ROILIST[m][(int) v] = 1` for every voxel value `v > 0.5`. */
  method MarkBrik(vox: seq<real>, ROILIST: array2<int>, m: int)
    requires 0 <= m < ROILIST.Length0
    requires forall i :: 0 <= i < |vox| && vox[i] > 0.5 ==> LabelOf(vox[i]) < ROILIST.Length1
    modifies ROILIST
    ensures Row(ROILIST, m) == Marked(old(Row(ROILIST, m)), vox)
    ensures OtherRowsAs(ROILIST, old(Cells(ROILIST)), m)
  {
    ghost var R0 := Cells(ROILIST);
    for i := 0 to |vox|
      invariant forall k :: 0 <= k < ROILIST.Length1 ==>
        ROILIST[m, k] == if Carries(vox[..i], k) then 1 else R0[m][k]
      invariant OtherRowsAs(ROILIST, R0, m)
    {
      assert forall k :: Carries(vox[..i + 1], k) <==>
        Carries(vox[..i], k) || (vox[i] > 0.5 && LabelOf(vox[i]) == k) by {
        forall k ensures Carries(vox[..i + 1], k) <==> Carries(vox[..i], k) || (vox[i] > 0.5 && LabelOf(vox[i]) == k) {
          if Carries(vox[..i + 1], k) {
            var t :| 0 <= t < i + 1 && vox[..i + 1][t] > 0.5 && LabelOf(vox[..i + 1][t]) == k;
            if t < i { assert vox[..i][t] == vox[t]; }
          }
          if Carries(vox[..i], k) {
            var t :| 0 <= t < i && vox[..i][t] > 0.5 && LabelOf(vox[..i][t]) == k;
            assert vox[..i + 1][t] == vox[t];
          }
          if vox[i] > 0.5 && LabelOf(vox[i]) == k { assert vox[..i + 1][i] == vox[i]; }
        }
      }
      if vox[i] > 0.5 {
        ROILIST[m, LabelOf(vox[i])] := 1;
      }
    }
    assert vox[..|vox|] == vox;
    assert forall k :: 0 <= k < ROILIST.Length1 ==> Row(ROILIST, m)[k] == Marked(R0[m], vox)[k];
  }

  /** The first loop of `ViveLeRoi`: mark the labels of every brik. */
  method MarkAll(REF: seq<seq<real>>, ROILIST: array2<int>)
    requires |REF| <= ROILIST.Length0
    requires forall m, i :: 0 <= m < |REF| && 0 <= i < |REF[m]| && REF[m][i] > 0.5 ==>
               LabelOf(REF[m][i]) < ROILIST.Length1
    modifies ROILIST
    ensures forall m :: 0 <= m < |REF| ==> Row(ROILIST, m) == Marked(old(Row(ROILIST, m)), REF[m])
    ensures forall m :: |REF| <= m < ROILIST.Length0 ==> Row(ROILIST, m) == old(Row(ROILIST, m))
  {
    ghost var R0 := Cells(ROILIST);
    for m := 0 to |REF|
      invariant forall m' :: 0 <= m' < m ==> Row(ROILIST, m') == Marked(R0[m'], REF[m'])
      invariant forall m' :: m <= m' < ROILIST.Length0 ==> Row(ROILIST, m') == R0[m']
    {
      ghost var before := Cells(ROILIST);
      MarkBrik(REF[m], ROILIST, m);
      OtherRowsEqual(ROILIST, before, m);
    }
  }

  /** The state of the compaction loop of brik `m` once the labels in `listed`
      have been placed: they sit at positions `1..j-1` of `ROILIST[m]` with their
      inverse in `INVLIST[m]`, and every other cell is as in `R0`/`I0`. */
  ghost predicate Compacting(ROILIST: array2<int>, INVLIST: array2<int>, m: int, R0: seq<seq<int>>, I0: seq<seq<int>>,
                             listed: seq<int>, j: int)
    reads ROILIST, INVLIST
  {
    && 0 <= m < ROILIST.Length0 && 0 <= m < INVLIST.Length0
    && OtherRowsAs(ROILIST, R0, m) && OtherRowsAs(INVLIST, I0, m)
    && j == |listed| + 1 && (listed != [] ==> j <= ROILIST.Length1)
    && (forall t :: 0 <= t < |listed| ==> 0 <= listed[t] < INVLIST.Length1)
    && (forall t :: 0 <= t < |listed| ==> ROILIST[m, t + 1] == listed[t])
    && (forall t :: 0 <= t < ROILIST.Length1 && !(1 <= t < j) ==> ROILIST[m, t] == R0[m][t])
    && (forall t :: 0 <= t < |listed| ==> INVLIST[m, listed[t]] == t + 1)
    && (forall k :: 0 <= k < INVLIST.Length1 && k !in listed ==> INVLIST[m, k] == I0[m][k])
  }

  /** One pass of the compaction loop, at label `i`: a marked label is written
      at position `j`, which is at most `i`, so only a cell already read is
      overwritten. */
  method Visit(ROILIST: array2<int>, INVLIST: array2<int>, m: int, i: int, j: int,
               ghost vox: seq<real>, ghost R0: seq<seq<int>>, ghost I0: seq<seq<int>>)
    returns (j': int)
    requires ROILIST != INVLIST
    requires 1 <= j <= i < ROILIST.Length1 && i < INVLIST.Length1
    requires Compacting(ROILIST, INVLIST, m, R0, I0, Present(vox, i - 1), j)
    requires R0[m][i] == 1 <==> Carries(vox, i)
    modifies ROILIST, INVLIST
    ensures j' <= i + 1
    ensures Compacting(ROILIST, INVLIST, m, R0, I0, Present(vox, i), j')
  {
    ghost var listed := Present(vox, i - 1);
    assert ROILIST[m, i] == R0[m][i];
    if ROILIST[m, i] == 1 {
      assert i !in listed;
      assert Present(vox, i) == listed + [i];
      Place(ROILIST, INVLIST, m, i, j);
      j' := j + 1;
    } else {
      assert Present(vox, i) == listed;
      j' := j;
    }
  }

  /** The compaction loop over one brik: walk `i` over `1..maxLabel`, placing
      each marked label at the next list position `j`. Returns the C variable
      `j`, one past the last list position. */
  method CompactLoop(ROILIST: array2<int>, INVLIST: array2<int>, m: int, maxLabel: int,
                     ghost vox: seq<real>)
    returns (j: int)
    requires ROILIST != INVLIST
    requires 0 <= m < ROILIST.Length0 && 0 <= m < INVLIST.Length0
    requires maxLabel < ROILIST.Length1 && maxLabel < INVLIST.Length1
    requires forall i :: 1 <= i <= maxLabel ==> (ROILIST[m, i] == 1 <==> Carries(vox, i))
    modifies ROILIST, INVLIST
    ensures j == |Present(vox, maxLabel)| + 1
    ensures Compacting(ROILIST, INVLIST, m, old(Cells(ROILIST)), old(Cells(INVLIST)), Present(vox, maxLabel), j)
  {
    ghost var R0 := Cells(ROILIST);
    ghost var I0 := Cells(INVLIST);
    j := 1;
    var i := 1;
    while i <= maxLabel
      invariant 1 <= i <= (if maxLabel < 1 then 1 else maxLabel + 1)
      invariant 1 <= j <= i
      invariant i <= maxLabel ==> Compacting(ROILIST, INVLIST, m, R0, I0, Present(vox, i - 1), j)
      invariant i > maxLabel ==> Compacting(ROILIST, INVLIST, m, R0, I0, Present(vox, maxLabel), j)
    {
      j := Visit(ROILIST, INVLIST, m, i, j, vox, R0, I0);
      i := i + 1;
    }
  }

  /** `ROILIST[m][j] = i; INVLIST[m][i] = j`: list label `i` at position `j`. */
  method Place(ROILIST: array2<int>, INVLIST: array2<int>, m: int, i: int, j: int)
    requires ROILIST != INVLIST
    requires 0 <= m < ROILIST.Length0 && 0 <= m < INVLIST.Length0
    requires 0 <= j < ROILIST.Length1 && 0 <= i < INVLIST.Length1
    modifies ROILIST, INVLIST
    ensures ROILIST[m, j] == i && INVLIST[m, i] == j
    ensures forall t :: 0 <= t < ROILIST.Length1 && t != j ==> ROILIST[m, t] == old(ROILIST[m, t])
    ensures forall t :: 0 <= t < INVLIST.Length1 && t != i ==> INVLIST[m, t] == old(INVLIST[m, t])
    ensures OtherRowsAs(ROILIST, old(Cells(ROILIST)), m)
    ensures OtherRowsAs(INVLIST, old(Cells(INVLIST)), m)
  {
    ROILIST[m, j] := i;
    INVLIST[m, i] := j;
  }

  /** The compaction of one brik, stated on its rows: the result is
      `RowCompacted`, and no other row changes. */
  method CompactBrik(ROILIST: array2<int>, INVLIST: array2<int>, m: int, maxLabel: int,
                     ghost vox: seq<real>)
    returns (j: int)
    requires ROILIST != INVLIST
    requires 0 <= m < ROILIST.Length0 && 0 <= m < INVLIST.Length0
    requires maxLabel < ROILIST.Length1 && maxLabel < INVLIST.Length1
    requires forall i :: 1 <= i <= maxLabel ==> (Row(ROILIST, m)[i] == 1 <==> Carries(vox, i))
    modifies ROILIST, INVLIST
    ensures j == |Present(vox, maxLabel)| + 1
    ensures RowCompacted(Row(ROILIST, m), Row(INVLIST, m), vox, maxLabel, j - 1,
                         old(Row(ROILIST, m)), old(Row(INVLIST, m)))
    ensures forall k :: 0 <= k < ROILIST.Length0 && k != m ==> Row(ROILIST, k) == old(Row(ROILIST, k))
    ensures forall k :: 0 <= k < INVLIST.Length0 && k != m ==> Row(INVLIST, k) == old(Row(INVLIST, k))
  {
    ghost var R0 := Cells(ROILIST);
    ghost var I0 := Cells(INVLIST);
    j := CompactLoop(ROILIST, INVLIST, m, maxLabel, vox);
    OtherRowsEqual(ROILIST, R0, m);
    OtherRowsEqual(INVLIST, I0, m);
  }

  /** `ViveLeRoi`: mark the labels of every brik, then compact each brik's list
      and store its length in `NUMROI`. Returns 1; returns 0 where the source
      calls `ERROR_exit`, which happens exactly when some brik declares a
      negative maximum label (the list can never be longer than the declared
      maximum). */
  method ViveLeRoi(REF: seq<seq<real>>, ROILIST: array2<int>, INVLIST: array2<int>,
                   NUMROI: array<int>, INVROI: array<int>)
    returns (r: int)
    requires ROILIST != INVLIST && NUMROI != INVROI
    requires |REF| <= ROILIST.Length0 && |REF| <= INVLIST.Length0 && |REF| <= NUMROI.Length && |REF| <= INVROI.Length
    requires forall m :: 0 <= m < |REF| ==> INVROI[m] < ROILIST.Length1 && INVROI[m] < INVLIST.Length1
    requires forall m, i :: 0 <= m < |REF| && 0 <= i < |REF[m]| && REF[m][i] > 0.5 ==>
               LabelOf(REF[m][i]) < ROILIST.Length1
    requires forall m, i :: 0 <= m < |REF| && 1 <= i <= INVROI[m] ==> ROILIST[m, i] == 0
    modifies ROILIST, INVLIST, NUMROI
    ensures r == 1 || r == 0
    ensures r == 1 <==> forall m :: 0 <= m < |REF| ==> INVROI[m] >= 0
    ensures r == 1 ==> forall m :: 0 <= m < |REF| ==>
              && NUMROI[m] == |Present(REF[m], INVROI[m])| <= INVROI[m]
              && RowCompacted(Row(ROILIST, m), Row(INVLIST, m), REF[m], INVROI[m], NUMROI[m],
                              Marked(old(Row(ROILIST, m)), REF[m]), old(Row(INVLIST, m)))
    ensures r == 1 ==> forall m :: |REF| <= m < NUMROI.Length ==> NUMROI[m] == old(NUMROI[m])
    ensures forall m :: |REF| <= m < ROILIST.Length0 ==> Row(ROILIST, m) == old(Row(ROILIST, m))
    ensures forall m :: |REF| <= m < INVLIST.Length0 ==> Row(INVLIST, m) == old(Row(INVLIST, m))
  {
    ghost var R0 := Cells(ROILIST);
    ghost var I0 := Cells(INVLIST);
    MarkAll(REF, ROILIST);
    ghost var R1 := Cells(ROILIST);
    for m := 0 to |REF|
      invariant forall m' :: 0 <= m' < m ==>
        && NUMROI[m'] == |Present(REF[m'], INVROI[m'])| <= INVROI[m']
        && RowCompacted(Row(ROILIST, m'), Row(INVLIST, m'), REF[m'], INVROI[m'], NUMROI[m'],
                        Marked(R0[m'], REF[m']), I0[m'])
      invariant forall m' :: 0 <= m' < m ==> INVROI[m'] >= 0
      invariant forall m' :: m <= m' < ROILIST.Length0 ==> Row(ROILIST, m') == R1[m']
      invariant forall m' :: m <= m' < INVLIST.Length0 ==> Row(INVLIST, m') == I0[m']
      invariant forall m' :: |REF| <= m' < NUMROI.Length ==> NUMROI[m'] == old(NUMROI[m'])
    {
      assert Row(ROILIST, m) == Marked(R0[m], REF[m]);
      var j := CompactBrik(ROILIST, INVLIST, m, INVROI[m], REF[m]);
      if INVROI[m] < j - 1 {
        // "Problem with ROI labels! Badness in reading/counting."
        return 0;
      }
      NUMROI[m] := j - 1;
    }
    return 1;
  }
}
