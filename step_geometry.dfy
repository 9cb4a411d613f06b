/** The per-iteration geometry of the tracer in DoTrackit.c: which wall of the
    current voxel each axis aims at, the parametric distance to it, the fixed
    comparator cascade that orders the axes, and the diagonal "corridor" test
    that decides which axes are stepped. Positions and directions are `real`. */
module StepGeometry {
  import opened Triples

  /** sin(22.5 deg) / sin(67.5 deg), as the source writes it. */
  const FF: real := 0.4143
  /** Near and far corridor margins, as fractions of a voxel edge. */
  const AA: real := 0.5 * (1.0 - FF)
  const BB: real := 0.5 * (1.0 + FF)

  lemma MarginsOrdered()
    ensures 0.0 < AA < 0.5 < BB < 1.0
    ensures AA + BB == 1.0
  {
  }

  /** A propagation or travel sign. */
  predicate IsSign(v: int) { v == 1 || v == -1 }

  predicate AllSigns(v: Triple<int>) { IsSign(v.x) && IsSign(v.y) && IsSign(v.z) }

  /** `vsign[n]`: +1 when the oriented component `fb * c` is non-negative, else -1. */
  function TravelSign(c: real, fb: int): (v: int)
    requires IsSign(fb)
    ensures IsSign(v)
    ensures v == 1 <==> (fb as real) * c >= 0.0
  {
    if c * (fb as real) >= 0.0 then 1 else -1
  }

  function TravelSigns(c: Triple<real>, fb: int): (v: Triple<int>)
    requires IsSign(fb)
    ensures AllSigns(v)
    ensures forall n: Axis :: v.At(n) == TravelSign(c.At(n), fb)
  {
    Triple(TravelSign(c.x, fb), TravelSign(c.y, fb), TravelSign(c.z, fb))
  }

  /** `targedge[n]`: the upper wall `(i+1)*e` when travelling up, the lower wall `i*e` otherwise. */
  function Wall(i: int, e: real, v: int): real {
    if v == 1 then (i + 1) as real * e else i as real * e
  }

  /** `divid`: the oriented component, or `eps` with the travel sign when the
      component is smaller than `eps` in magnitude. */
  function Divisor(c: real, fb: int, eps: real): (d: real)
    requires IsSign(fb) && eps > 0.0
    ensures d != 0.0
    ensures d > 0.0 <==> TravelSign(c, fb) == 1
  {
    if (if c < 0.0 then -c else c) < eps then eps * (TravelSign(c, fb) as real)
    else (fb as real) * c
  }

  /** `stest[n]`: parametric distance from `pos` to the aimed wall. */
  function Param(i: int, e: real, pos: real, c: real, fb: int, eps: real): (s: real)
    requires IsSign(fb) && eps > 0.0
    ensures s < 0.0 <==>
      (if TravelSign(c, fb) == 1 then Wall(i, e, 1) < pos else pos < Wall(i, e, -1))
  {
    var w := Wall(i, e, TravelSign(c, fb));
    var d := Divisor(c, fb, eps);
    QuotientNegative(w - pos, d);
    (w - pos) / d
  }

  lemma QuotientNegative(a: real, d: real)
    requires d != 0.0
    ensures a / d < 0.0 <==> (if d > 0.0 then a < 0.0 else a > 0.0)
  {
    if d > 0.0 {
      if a < 0.0 { assert a / d * d == a; }
      if a >= 0.0 { assert a / d * d == a; }
    } else {
      if a > 0.0 { assert a / d * d == a; }
      if a <= 0.0 { assert a / d * d == a; }
    }
  }

  function Params(ind: Triple<int>, edge: Triple<real>, pos: Triple<real>, c: Triple<real>, fb: int, eps: real): (s: Triple<real>)
    requires IsSign(fb) && eps > 0.0
    ensures forall n: Axis :: s.At(n) == Param(ind.At(n), edge.At(n), pos.At(n), c.At(n), fb, eps)
  {
    Triple(Param(ind.x, edge.x, pos.x, c.x, fb, eps),
           Param(ind.y, edge.y, pos.y, c.y, fb, eps),
           Param(ind.z, edge.z, pos.z, c.z, fb, eps))
  }

  /** The "walkback" stop: some aimed wall lies behind the position. */
  predicate Walkback(s: Triple<real>) {
    s.x < 0.0 || s.y < 0.0 || s.z < 0.0
  }

  /** The three-comparator cascade: axis 1 against 0, then 2 against the new
      first, then 2 against the new second. Comparisons are strict. */
  function Order(s: Triple<real>): (o: Triple<Axis>)
    ensures IsPermutation(o)
    ensures s.At(o.x) <= s.At(o.y) <= s.At(o.z)
  {
    var o0 := Triple(0, 1, 2);
    var o1 := if s.At(o0.y) < s.At(o0.x) then Triple(1, 0, o0.z) else o0;
    var o2 := if s.At(o1.z) < s.At(o1.x) then Triple(o1.z, o1.y, o1.x) else o1;
    var o3 := if s.At(o2.z) < s.At(o2.y) then Triple(o2.x, o2.z, o2.y) else o2;
    o3
  }

  /** Ties are not broken lowest-axis-first: a stable sort of [1, 1, 0] would
      give [2, 0, 1]. */
  lemma OrderTieExample()
    ensures Order(Triple(1.0, 1.0, 0.0)) == Triple(2, 1, 0)
  {
  }

  /** With no ties the cascade yields the unique ascending order. */
  lemma OrderUnique(s: Triple<real>, o: Triple<Axis>)
    requires s.x != s.y && s.y != s.z && s.x != s.z
    requires IsPermutation(o) && s.At(o.x) <= s.At(o.y) <= s.At(o.z)
    ensures Order(s) == o
  {
  }

  /** The axes stepped in one iteration, and the axis `win` whose distance is travelled. */
  datatype Move = Move(go: Triple<int>, win: Axis)

  /** `test[n]`: where the position would sit on axis `n`, relative to the
      lower wall of voxel `i + g`, after travelling distance `s`. */
  function Offset(pos: real, s: real, fb: int, c: real, i: int, g: int, e: real): real {
    pos + s * (fb as real) * c - (i + g) as real * e
  }

  /** The projected offset has crossed the far margin in travel direction `v`. */
  predicate Overshoots(v: int, t: real, e: real) {
    (v > 0 && t > e * BB) || (v < 0 && t < e * AA)
  }

  /** The projected offset is still within the near margin of the next voxel. */
  predicate NearEntry(v: int, t: real, e: real) {
    (v > 0 && t < e * AA) || (v < 0 && t > e * BB)
  }

  /** The corridor cascade: the nearest axis always steps; the second one steps
      too when its projection overshoots and the first is still near its entry;
      the third one steps when it overshoots as well and both others are near
      their entries at its distance. */
  function Corridor(pos: Triple<real>, ind: Triple<int>, edge: Triple<real>, c: Triple<real>,
                    fb: int, v: Triple<int>, s: Triple<real>, o: Triple<Axis>): (m: Move)
    requires IsPermutation(o)
    ensures m.go.At(o.x) == v.At(o.x)
    ensures forall n: Axis :: m.go.At(n) == 0 || m.go.At(n) == v.At(n)
    ensures m.go.At(o.z) != 0 ==> m.go.At(o.y) != 0
    ensures m.win == (if m.go.At(o.z) != 0 then o.z else if m.go.At(o.y) != 0 then o.y else o.x)
    ensures AllSigns(v) ==> m.go.At(m.win) != 0
  {
    var go0 := Triple(0, 0, 0).With(o.x, v.At(o.x));
    var t1 := Offset(pos.At(o.y), s.At(o.x), fb, c.At(o.y), ind.At(o.y), 0, edge.At(o.y));
    if !Overshoots(v.At(o.y), t1, edge.At(o.y)) then Move(go0, o.x)
    else
      var t0 := Offset(pos.At(o.x), s.At(o.y), fb, c.At(o.x), ind.At(o.x), go0.At(o.x), edge.At(o.x));
      if !NearEntry(v.At(o.x), t0, edge.At(o.x)) then Move(go0, o.x)
      else
        var go1 := go0.With(o.y, v.At(o.y));
        var t2 := Offset(pos.At(o.z), s.At(o.x), fb, c.At(o.z), ind.At(o.z), 0, edge.At(o.z));
        if !Overshoots(v.At(o.z), t2, edge.At(o.z)) then Move(go1, o.y)
        else
          var u0 := Offset(pos.At(o.x), s.At(o.z), fb, c.At(o.x), ind.At(o.x), go1.At(o.x), edge.At(o.x));
          var u1 := Offset(pos.At(o.y), s.At(o.z), fb, c.At(o.y), ind.At(o.y), go1.At(o.y), edge.At(o.y));
          if NearEntry(v.At(o.x), u0, edge.At(o.x)) && NearEntry(v.At(o.y), u1, edge.At(o.y))
          then Move(go1.With(o.z, v.At(o.z)), o.z)
          else Move(go1, o.y)
  }

  /** Every stepped component is -1, 0 or +1, at least one is non-zero, and the
      travelled distance `s[win]` is the largest among the stepped axes. */
  lemma CorridorStep(pos: Triple<real>, ind: Triple<int>, edge: Triple<real>, c: Triple<real>,
                     fb: int, v: Triple<int>, s: Triple<real>)
    requires AllSigns(v)
    ensures var m := Corridor(pos, ind, edge, c, fb, v, s, Order(s));
      && (forall n: Axis :: -1 <= m.go.At(n) <= 1)
      && m.go != Triple(0, 0, 0)
      && (forall n: Axis :: m.go.At(n) != 0 ==> s.At(n) <= s.At(m.win))
      && s.At(Order(s).x) <= s.At(m.win)
  {
    var o := Order(s);
    var m := Corridor(pos, ind, edge, c, fb, v, s, o);
    forall n: Axis | m.go.At(n) != 0 ensures s.At(n) <= s.At(m.win) {
      PermutationCoversAxes(o, n);
    }
    forall n: Axis ensures -1 <= m.go.At(n) <= 1 {
    }
    assert m.go.At(m.win) != 0;
  }

  /** `Iam0[n] += s * FB * CC[n]`: travel distance `s` along the oriented direction. */
  function Advance(pos: Triple<real>, s: real, fb: int, c: Triple<real>): (p: Triple<real>)
    ensures forall n: Axis :: p.At(n) == pos.At(n) + s * (fb as real) * c.At(n)
  {
    Triple(pos.x + s * (fb as real) * c.x, pos.y + s * (fb as real) * c.y, pos.z + s * (fb as real) * c.z)
  }

  /** The first `n` terms of the alignment sum `sum CC_new[n] * FB * CC_old[n]`. */
  function AlignUpTo(cur: Triple<real>, fb: int, prev: Triple<real>, n: nat): real
    requires n <= 3
  {
    if n == 0 then 0.0 else AlignUpTo(cur, fb, prev, n - 1) + cur.At(n - 1) * (fb as real) * prev.At(n - 1)
  }

  /** Dot product of the new direction with the oriented old one. */
  function Align(cur: Triple<real>, fb: int, prev: Triple<real>): (d: real)
    ensures d == (fb as real) * (cur.x * prev.x + cur.y * prev.y + cur.z * prev.z)
  {
    var f := fb as real;
    assert AlignUpTo(cur, fb, prev, 1) == cur.x * f * prev.x;
    assert AlignUpTo(cur, fb, prev, 2) == cur.x * f * prev.x + cur.y * f * prev.y;
    assert AlignUpTo(cur, fb, prev, 3)
        == cur.x * f * prev.x + cur.y * f * prev.y + cur.z * f * prev.z;
    assert cur.x * f * prev.x + cur.y * f * prev.y + cur.z * f * prev.z
        == f * (cur.x * prev.x + cur.y * prev.y + cur.z * prev.z);
    AlignUpTo(cur, fb, prev, 3)
  }

  /** Squared length of a direction. */
  function Norm2(v: Triple<real>): real {
    v.x * v.x + v.y * v.y + v.z * v.z
  }

  /** Lagrange's identity in three dimensions. */
  lemma Lagrange(a: Triple<real>, b: Triple<real>)
    ensures Norm2(a) * Norm2(b) - Dot(a, b) * Dot(a, b)
         == (a.x * b.y - a.y * b.x) * (a.x * b.y - a.y * b.x)
          + (a.x * b.z - a.z * b.x) * (a.x * b.z - a.z * b.x)
          + (a.y * b.z - a.z * b.y) * (a.y * b.z - a.z * b.y)
  {
  }

  function Dot(a: Triple<real>, b: Triple<real>): real {
    a.x * b.x + a.y * b.y + a.z * b.z
  }

  lemma MulNonNegative(x: real, y: real)
    requires x >= 0.0 && y >= 0.0
    ensures x * y >= 0.0
  {
  }

  /** A square of at most 1 comes from a number in [-1, 1]. */
  lemma SquareBound(d: real)
    requires d * d <= 1.0
    ensures -1.0 <= d <= 1.0
  {
  }

  /** Cauchy-Schwarz for directions of length at most 1. */
  lemma DotBounded(a: Triple<real>, b: Triple<real>)
    requires Norm2(a) <= 1.0 && Norm2(b) <= 1.0
    ensures -1.0 <= Dot(a, b) <= 1.0
  {
    Lagrange(a, b);
    var p, q, r := a.x * b.y - a.y * b.x, a.x * b.z - a.z * b.x, a.y * b.z - a.z * b.y;
    assert p * p >= 0.0 && q * q >= 0.0 && r * r >= 0.0;
    var na, nb := Norm2(a), Norm2(b);
    assert 0.0 <= na && 0.0 <= nb;
    MulNonNegative(nb, 1.0 - na);
    assert na * nb <= nb;
    var d := Dot(a, b);
    assert d * d <= na * nb;
    SquareBound(d);
  }

  /** For directions of length at most 1 the alignment lies in [-1, 1]. */
  lemma AlignBounded(cur: Triple<real>, fb: int, prev: Triple<real>)
    requires IsSign(fb) && Norm2(cur) <= 1.0 && Norm2(prev) <= 1.0
    ensures -1.0 <= Align(cur, fb, prev) <= 1.0
  {
    DotBounded(cur, prev);
    assert Align(cur, fb, prev) == (fb as real) * Dot(cur, prev);
  }

  /** The sign disambiguation: a negative alignment is negated and the
      propagation sign becomes -1; otherwise it becomes +1. */
  function Disambiguate(d: real): (r: (real, int))
    ensures r.0 >= 0.0 && IsSign(r.1)
    ensures r.0 == (if d < 0.0 then -d else d)
    ensures r.1 == -1 <==> d < 0.0
  {
    if d < 0.0 then (-d, -1) else (d, 1)
  }
}
