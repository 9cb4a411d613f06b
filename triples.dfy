/** Three-component values, indexed by axis number 0, 1 or 2, as the tracer's
    `int[3]` and `float[3]` locals are. */
module Triples {

  /** An axis number. */
  type Axis = n: int | 0 <= n < 3

  datatype Triple<T> = Triple(x: T, y: T, z: T) {

    /** The component on axis `n` (the C expression `v[n]`). */
    function At(n: Axis): T {
      if n == 0 then x else if n == 1 then y else z
    }

    /** This triple with the component on axis `n` replaced (the C statement `v[n] = v0`). */
    function With(n: Axis, v: T): (r: Triple<T>)
      ensures r.At(n) == v
      ensures forall k: Axis :: k != n ==> r.At(k) == At(k)
    {
      if n == 0 then Triple(v, y, z) else if n == 1 then Triple(x, v, z) else Triple(x, y, v)
    }
  }

  /** Component-wise sum of two integer triples. */
  function Add(a: Triple<int>, b: Triple<int>): (r: Triple<int>)
    ensures forall n: Axis :: r.At(n) == a.At(n) + b.At(n)
  {
    Triple(a.x + b.x, a.y + b.y, a.z + b.z)
  }

  /** The three components are the three different axes. */
  predicate IsPermutation(o: Triple<Axis>) {
    o.x != o.y && o.y != o.z && o.x != o.z
  }

  lemma PermutationCoversAxes(o: Triple<Axis>, n: Axis)
    requires IsPermutation(o)
    ensures n == o.x || n == o.y || n == o.z
  {
  }
}
