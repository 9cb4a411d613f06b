/** Row snapshots of two-dimensional arrays, for stating what a method wrote
    and what it left unchanged. */
module Tables {

  /** Row `k` of `T`. */
  ghost function Row<V>(T: array2<V>, k: int): (r: seq<V>)
    reads T
    requires 0 <= k < T.Length0
    ensures |r| == T.Length1
    ensures forall n :: 0 <= n < T.Length1 ==> r[n] == T[k, n]
  {
    seq(T.Length1, n requires 0 <= n < T.Length1 reads T => T[k, n])
  }

  /** The contents of `T`, row by row. */
  ghost function Cells<V>(T: array2<V>): (s: seq<seq<V>>)
    reads T
    ensures |s| == T.Length0 && forall k :: 0 <= k < |s| ==> |s[k]| == T.Length1
    ensures forall k :: 0 <= k < T.Length0 ==> s[k] == Row(T, k)
    ensures forall k, n :: 0 <= k < T.Length0 && 0 <= n < T.Length1 ==> s[k][n] == T[k, n]
  {
    seq(T.Length0, k requires 0 <= k < T.Length0 reads T => Row(T, k))
  }

  /** Every row of `T` other than row `m` holds what snapshot `T0` holds. */
  ghost predicate OtherRowsAs<V>(T: array2<V>, T0: seq<seq<V>>, m: int)
    reads T
  {
    |T0| == T.Length0 && (forall k :: 0 <= k < |T0| ==> |T0[k]| == T.Length1) &&
    forall k, n :: 0 <= k < T.Length0 && 0 <= n < T.Length1 && k != m ==> T[k, n] == T0[k][n]
  }

  /** Cell-wise agreement of the other rows gives row-wise agreement. */
  lemma OtherRowsEqual<V>(T: array2<V>, T0: seq<seq<V>>, m: int)
    requires OtherRowsAs(T, T0, m)
    ensures forall k :: 0 <= k < T.Length0 && k != m ==> Row(T, k) == T0[k]
  {
    forall k | 0 <= k < T.Length0 && k != m ensures Row(T, k) == T0[k] {
      assert forall n :: 0 <= n < T.Length1 ==> Row(T, k)[n] == T0[k][n];
    }
  }
}
