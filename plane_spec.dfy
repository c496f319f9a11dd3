/**
 * The aircraft's design data (`PlaneSpec` and its parts), its default value,
 * and the piecewise-linear lift-coefficient curve that is built from a wing's
 * (element, knot) control points and sampled into a fixed-size table.
 */
module PlaneSpecs {
  import opened Vectors

  datatype WingSpec = WingSpec(size: Vec3, liftCoefficientElements: seq<real>, liftCoefficientKnots: seq<real>)

  datatype FuselageSpec = FuselageSpec(size: Vec3)

  datatype TailSpec = TailSpec(size: Vec3, vertical: WingSpec, horizontal: WingSpec)

  datatype PlaneSpec = PlaneSpec(name: string, thrust: real, fuselage: FuselageSpec, wings: WingSpec, tail: TailSpec)

  /** Number of samples taken from a lift-coefficient curve. */
  const SampleCount: nat := 180

  const DefaultName: string := "Default"
  const DefaultThrust: real := 150.0

  const DefaultWings := WingSpec(
    Vec3(5.5, 0.2, 1.5),
    [0.0, 0.0, 0.35, 1.4, 0.8, 0.0],
    [-90.0, -5.0, 0.0, 10.0, 15.0, 90.0])

  const DefaultVerticalTail := WingSpec(
    Vec3(0.1, 2.0, 0.5),
    [-0.0, -0.01, 0.0, 0.0, 0.0, 0.01, 0.0],
    [-90.0, -10.0, -2.5, 0.0, 2.5, 10.0, 90.0])

  const DefaultHorizontalTail := WingSpec(
    Vec3(2.0, 0.2, 1.0),
    [-0.0, -0.15, 0.10, 0.15, 0.0],
    [-90.0, -10.0, 0.0, 10.0, 90.0])

  /** `PlaneSpec::default`. */
  function Default(): PlaneSpec {
    PlaneSpec(
      DefaultName,
      DefaultThrust,
      FuselageSpec(Vec3(1.12, 2.0, 5.3)),
      DefaultWings,
      TailSpec(Vec3(0.25, 0.25, 3.0), DefaultVerticalTail, DefaultHorizontalTail))
  }

  /** `PlaneSpec::new`: the default design under another name. */
  function New(name: string): (s: PlaneSpec)
    ensures s.name == name
    ensures s.(name := DefaultName) == Default()
  {
    Default().(name := name)
  }

  // ---------------------------------------------------------------------
  // Piecewise-linear curves
  // ---------------------------------------------------------------------

  /** Why building a linear curve can fail. */
  datatype LinearError =
    | KnotElementInequality(elements: nat, knots: nat)
    | TooFewElements(found: nat)
    | NotSorted

  datatype CurveResult<T> = Built(value: T) | Failed(error: LinearError)

  /** A built linear curve: knots (angles in degrees) and the elements at them. */
  datatype Linear = Linear(knots: seq<real>, elements: seq<real>)

  /** Knots in non-decreasing order, the builder's sortedness requirement. */
  predicate Sorted(k: seq<real>) {
    forall i :: 0 <= i < |k| - 1 ==> k[i] <= k[i + 1]
  }

  predicate StrictlyAscending(k: seq<real>) {
    forall i, j :: 0 <= i < j < |k| ==> k[i] < k[j]
  }

  predicate ValidCurve(c: Linear) {
    |c.knots| == |c.elements| && |c.elements| >= 2 && Sorted(c.knots)
  }

  /**
   * `Linear::builder().elements(e).knots(k).build()`: one knot per element,
   * at least two of them, knots sorted.
   */
  function BuildLinear(elements: seq<real>, knots: seq<real>): (r: CurveResult<Linear>)
    ensures r.Built? <==> |elements| == |knots| && |elements| >= 2 && Sorted(knots)
    ensures r.Built? ==> r.value.knots == knots && r.value.elements == elements && ValidCurve(r.value)
  {
    if |elements| != |knots| then Failed(KnotElementInequality(|elements|, |knots|))
    else if |elements| < 2 then Failed(TooFewElements(|elements|))
    else if !Sorted(knots) then Failed(NotSorted)
    else Built(Linear(knots, elements))
  }

  /**
   * The index of the segment `[k[i], k[i+1]]` used to evaluate at `t`, found
   * by scanning upwards from `i`: the first segment whose upper knot lies
   * above `t`, or the last segment.
   */
  function SegmentFrom(k: seq<real>, t: real, i: nat): (j: nat)
    requires |k| >= 2 && i <= |k| - 2
    ensures i <= j <= |k| - 2
    decreases |k| - i
  {
    if i == |k| - 2 || t < k[i + 1] then i else SegmentFrom(k, t, i + 1)
  }

  /** Linear interpolation between `a` at knot `ka` and `b` at knot `kb`. */
  function Lerp(a: real, b: real, ka: real, kb: real, t: real): real {
    if ka == kb then a
    else
      var f := (t - ka) / (kb - ka);
      a * (1.0 - f) + b * f
  }

  /** The value of the curve at `t`. */
  function Eval(c: Linear, t: real): real
    requires ValidCurve(c)
  {
    var i := SegmentFrom(c.knots, t, 0);
    Lerp(c.elements[i], c.elements[i + 1], c.knots[i], c.knots[i + 1], t)
  }

  /** The `j`-th of `n` equidistant positions covering `[lo, hi]`, both ends included. */
  function SamplePosition(lo: real, hi: real, n: nat, j: nat): real {
    if n <= 1 then lo else lo + (hi - lo) * ((j as real) / ((n - 1) as real))
  }

  /** `curve.take(n).collect()`: `n` equidistant samples over the curve's domain. */
  function Take(c: Linear, n: nat): (s: seq<real>)
    requires ValidCurve(c)
    ensures |s| == n
  {
    seq(n, j requires 0 <= j < n =>
      Eval(c, SamplePosition(c.knots[0], c.knots[|c.knots| - 1], n, j)))
  }

  /**
   * `WingSpec::lift_coefficient_curve`. The source unwraps the builder's
   * result and so panics on malformed control points; here the failure is
   * returned.
   */
  function LiftCoefficientCurve(w: WingSpec): (r: CurveResult<Linear>)
    ensures r.Built? <==> CurveWellFormed(w)
    ensures r.Built? ==> r.value == Linear(w.liftCoefficientKnots, w.liftCoefficientElements)
  {
    BuildLinear(w.liftCoefficientElements, w.liftCoefficientKnots)
  }

  predicate CurveWellFormed(w: WingSpec) {
    && |w.liftCoefficientElements| == |w.liftCoefficientKnots|
    && |w.liftCoefficientElements| >= 2
    && Sorted(w.liftCoefficientKnots)
  }

  /** `WingSpec::lift_coefficient_samples`: the curve sampled into 180 values. */
  function LiftCoefficientSamples(w: WingSpec): (r: CurveResult<seq<real>>)
    ensures r.Built? <==> CurveWellFormed(w)
    ensures r.Built? ==> |r.value| == SampleCount
    ensures r.Failed? ==> r.error == LiftCoefficientCurve(w).error
  {
    match LiftCoefficientCurve(w)
    case Built(c) => Built(Take(c, SampleCount))
    case Failed(e) => Failed(e)
  }

  // ---------------------------------------------------------------------
  // Properties of the interpolant
  // ---------------------------------------------------------------------

  function Min(s: seq<real>): (m: real)
    requires |s| >= 1
    ensures m in s
    ensures forall i :: 0 <= i < |s| ==> m <= s[i]
  {
    if |s| == 1 then s[0]
    else
      var rest := Min(s[1..]);
      assert forall i :: 1 <= i < |s| ==> s[i] == s[1..][i - 1];
      if s[0] <= rest then s[0] else rest
  }

  function Max(s: seq<real>): (m: real)
    requires |s| >= 1
    ensures m in s
    ensures forall i :: 0 <= i < |s| ==> s[i] <= m
  {
    if |s| == 1 then s[0]
    else
      var rest := Max(s[1..]);
      assert forall i :: 1 <= i < |s| ==> s[i] == s[1..][i - 1];
      if s[0] >= rest then s[0] else rest
  }

  /** Between its two knots, an interpolated value lies between the two elements. */
  lemma LerpBetween(a: real, b: real, ka: real, kb: real, t: real)
    requires ka <= t <= kb
    ensures a <= b ==> a <= Lerp(a, b, ka, kb, t) <= b
    ensures b <= a ==> b <= Lerp(a, b, ka, kb, t) <= a
  {
    if ka != kb {
      var f := (t - ka) / (kb - ka);
      FractionInUnit(t - ka, kb - ka);
      var l := Lerp(a, b, ka, kb, t);
      assert l == a * (1.0 - f) + b * f;
      LerpForm(a, b, f);
      if a <= b {
        ScaleByFraction(b - a, f);
        assert a <= l <= b;
      } else {
        var g := (a - b) * f;
        ScaleByFraction(a - b, f);
        assert (b - a) * f == -g;
        assert l == a - g;
        assert b <= l <= a;
      }
    }
  }

  lemma LerpForm(a: real, b: real, f: real)
    ensures a * (1.0 - f) + b * f == a + (b - a) * f
  {
  }

  lemma LerpAtEnds(a: real, b: real, ka: real, kb: real)
    requires ka < kb
    ensures Lerp(a, b, ka, kb, ka) == a
    ensures Lerp(a, b, ka, kb, kb) == b
  {
    assert (kb - ka) / (kb - ka) == 1.0;
  }

  lemma FractionInUnit(a: real, b: real)
    requires 0.0 <= a <= b && b > 0.0
    ensures 0.0 <= a / b <= 1.0
  {
    assert a / b * b == a;
  }

  lemma ScaleByFraction(x: real, f: real)
    requires 0.0 <= x && 0.0 <= f <= 1.0
    ensures 0.0 <= x * f <= x
  {
    assert x * f <= x * 1.0;
  }

  /** Scanning from a point in the domain ends on a segment that brackets `t`. */
  lemma {:induction false} SegmentBrackets(k: seq<real>, t: real, i: nat)
    requires |k| >= 2 && i <= |k| - 2 && Sorted(k)
    requires k[i] <= t <= k[|k| - 1]
    ensures var j := SegmentFrom(k, t, i); k[j] <= t <= k[j + 1]
    decreases |k| - i
  {
    if i == |k| - 2 || t < k[i + 1] {
    } else {
      SegmentBrackets(k, t, i + 1);
    }
  }

  /** Scanning skips every segment whose upper knot is at or below `t`. */
  lemma {:induction false} SegmentSkips(k: seq<real>, t: real, m: nat, i: nat)
    requires |k| >= 2 && m <= i <= |k| - 2
    requires forall l :: m < l <= i ==> k[l] <= t
    ensures SegmentFrom(k, t, m) == SegmentFrom(k, t, i)
    decreases i - m
  {
    if m < i {
      assert k[m + 1] <= t;
      SegmentSkips(k, t, m + 1, i);
    }
  }

  /**
   * For strictly ascending knots the curve agrees, on each segment, with the
   * linear interpolation between that segment's two elements.
   */
  lemma EvalOnSegment(c: Linear, i: nat, t: real)
    requires ValidCurve(c) && StrictlyAscending(c.knots)
    requires i <= |c.knots| - 2
    requires c.knots[i] <= t <= c.knots[i + 1]
    ensures Eval(c, t) == Lerp(c.elements[i], c.elements[i + 1], c.knots[i], c.knots[i + 1], t)
  {
    var k, e := c.knots, c.elements;
    SegmentSkips(k, t, 0, i);
    if !(i == |k| - 2 || t < k[i + 1]) {
      // t sits exactly on the upper knot; the scan moves to the next segment,
      // which starts with the same element.
      assert t == k[i + 1];
      assert k[i + 1] < k[i + 2];
      assert SegmentFrom(k, t, i) == i + 1;
      LerpAtEnds(e[i + 1], e[i + 2], k[i + 1], k[i + 2]);
      LerpAtEnds(e[i], e[i + 1], k[i], k[i + 1]);
    }
  }

  /** The curve passes through every control point. */
  lemma EvalAtKnot(c: Linear, i: nat)
    requires ValidCurve(c) && StrictlyAscending(c.knots)
    requires i < |c.knots|
    ensures Eval(c, c.knots[i]) == c.elements[i]
  {
    var k, e := c.knots, c.elements;
    if i < |k| - 1 {
      EvalOnSegment(c, i, k[i]);
      LerpAtEnds(e[i], e[i + 1], k[i], k[i + 1]);
    } else {
      EvalOnSegment(c, i - 1, k[i]);
      LerpAtEnds(e[i - 1], e[i], k[i - 1], k[i]);
    }
  }

  /**
   * Between two adjacent knots the curve lies between the elements at those
   * knots.
   */
  lemma EvalBetweenAdjacent(c: Linear, i: nat, t: real)
    requires ValidCurve(c) && StrictlyAscending(c.knots)
    requires i <= |c.knots| - 2
    requires c.knots[i] <= t <= c.knots[i + 1]
    ensures c.elements[i] <= c.elements[i + 1] ==> c.elements[i] <= Eval(c, t) <= c.elements[i + 1]
    ensures c.elements[i + 1] <= c.elements[i] ==> c.elements[i + 1] <= Eval(c, t) <= c.elements[i]
  {
    EvalOnSegment(c, i, t);
    LerpBetween(c.elements[i], c.elements[i + 1], c.knots[i], c.knots[i + 1], t);
  }

  /** Inside the domain the curve never leaves the range of its elements. */
  lemma EvalBounded(c: Linear, t: real)
    requires ValidCurve(c)
    requires c.knots[0] <= t <= c.knots[|c.knots| - 1]
    ensures Min(c.elements) <= Eval(c, t) <= Max(c.elements)
  {
    var k, e := c.knots, c.elements;
    var j := SegmentFrom(k, t, 0);
    SegmentBrackets(k, t, 0);
    LerpBetween(e[j], e[j + 1], k[j], k[j + 1], t);
  }

  lemma SamplePositionInDomain(lo: real, hi: real, n: nat, j: nat)
    requires lo <= hi && j < n
    ensures lo <= SamplePosition(lo, hi, n, j) <= hi
  {
    if n > 1 {
      FractionInUnit(j as real, (n - 1) as real);
      ScaleByFraction(hi - lo, (j as real) / ((n - 1) as real));
    }
  }

  /** Every sample of a well-formed wing's table lies within the range of its elements. */
  lemma SamplesBounded(w: WingSpec, j: nat)
    requires CurveWellFormed(w) && j < SampleCount
    ensures var s := LiftCoefficientSamples(w).value;
      Min(w.liftCoefficientElements) <= s[j] <= Max(w.liftCoefficientElements)
  {
    var c := Linear(w.liftCoefficientKnots, w.liftCoefficientElements);
    var k := c.knots;
    assert k[0] <= k[|k| - 1] by { SortedEnds(k, 0, |k| - 1); }
    SamplePositionInDomain(k[0], k[|k| - 1], SampleCount, j);
    EvalBounded(c, SamplePosition(k[0], k[|k| - 1], SampleCount, j));
  }

  /** The sampling positions start at the first knot and end at the last. */
  lemma SamplePositionEnds(lo: real, hi: real, n: nat)
    requires n >= 2
    ensures SamplePosition(lo, hi, n, 0) == lo
    ensures SamplePosition(lo, hi, n, n - 1) == hi
  {
    var d := (n - 1) as real;
    assert d / d == 1.0;
  }

  /** The first and last samples are the first and last elements. */
  lemma SamplesEndpoints(w: WingSpec)
    requires CurveWellFormed(w) && StrictlyAscending(w.liftCoefficientKnots)
    ensures var s := LiftCoefficientSamples(w).value; var e := w.liftCoefficientElements;
      s[0] == e[0] && s[SampleCount - 1] == e[|e| - 1]
  {
    var c := Linear(w.liftCoefficientKnots, w.liftCoefficientElements);
    var k := c.knots;
    var lo, hi := k[0], k[|k| - 1];
    EvalAtKnot(c, 0);
    EvalAtKnot(c, |k| - 1);
    SamplePositionEnds(lo, hi, SampleCount);
    var s := Take(c, SampleCount);
    assert s[0] == Eval(c, SamplePosition(lo, hi, SampleCount, 0));
    assert s[SampleCount - 1] == Eval(c, SamplePosition(lo, hi, SampleCount, SampleCount - 1));
  }

  lemma {:induction false} SortedEnds(k: seq<real>, i: nat, j: nat)
    requires Sorted(k) && i <= j < |k|
    ensures k[i] <= k[j]
    decreases j - i
  {
    if i < j {
      SortedEnds(k, i + 1, j);
    }
  }

  /**
   * If the knots are symmetric about 0 and the elements antisymmetric, the
   * curve is an odd function on its domain.
   */
  lemma EvalOdd(c: Linear, t: real)
    requires ValidCurve(c) && StrictlyAscending(c.knots)
    requires forall i :: 0 <= i < |c.knots| ==> c.knots[|c.knots| - 1 - i] == -c.knots[i]
    requires forall i :: 0 <= i < |c.elements| ==> c.elements[|c.elements| - 1 - i] == -c.elements[i]
    requires c.knots[0] <= t <= c.knots[|c.knots| - 1]
    ensures Eval(c, -t) == -Eval(c, t)
  {
    var k, e, n := c.knots, c.elements, |c.knots|;
    var i := SegmentFrom(k, t, 0);
    SegmentBrackets(k, t, 0);
    var m := n - 2 - i;
    assert k[m] == -k[i + 1] && k[m + 1] == -k[i] by {
      assert k[n - 1 - (i + 1)] == -k[i + 1];
      assert k[n - 1 - i] == -k[i];
    }
    assert e[m] == -e[i + 1] && e[m + 1] == -e[i] by {
      assert e[n - 1 - (i + 1)] == -e[i + 1];
      assert e[n - 1 - i] == -e[i];
    }
    EvalOnSegment(c, i, t);
    EvalOnSegment(c, m, -t);
    LerpMirror(e[i], e[i + 1], k[i], k[i + 1], t);
  }

  /** Reflecting a segment through the origin negates its interpolation. */
  lemma LerpMirror(a: real, b: real, ka: real, kb: real, t: real)
    requires ka < kb
    ensures Lerp(-b, -a, -kb, -ka, -t) == -Lerp(a, b, ka, kb, t)
  {
    var d := kb - ka;
    var f := (t - ka) / d;
    var g := (-t - -kb) / (-ka - -kb);
    assert g == (d - (t - ka)) / d;
    assert (d - (t - ka)) / d == d / d - (t - ka) / d;
    assert d / d == 1.0;
    assert g == 1.0 - f;
  }

  // ---------------------------------------------------------------------
  // The default design's curves are well-formed
  // ---------------------------------------------------------------------

  /**
   * Each default wing has as many elements as knots (6, 7 and 5), its knots
   * rise strictly from -90 to 90, and so building its curve cannot fail.
   */
  lemma DefaultCurvesWellFormed()
    ensures var d := Default();
      && |d.wings.liftCoefficientElements| == |d.wings.liftCoefficientKnots| == 6
      && |d.tail.vertical.liftCoefficientElements| == |d.tail.vertical.liftCoefficientKnots| == 7
      && |d.tail.horizontal.liftCoefficientElements| == |d.tail.horizontal.liftCoefficientKnots| == 5
    ensures forall w :: w in [DefaultWings, DefaultVerticalTail, DefaultHorizontalTail] ==>
      && StrictlyAscending(w.liftCoefficientKnots)
      && w.liftCoefficientKnots[0] == -90.0
      && w.liftCoefficientKnots[|w.liftCoefficientKnots| - 1] == 90.0
      && CurveWellFormed(w)
      && LiftCoefficientSamples(w).Built?
  {
    forall w | w in [DefaultWings, DefaultVerticalTail, DefaultHorizontalTail]
      ensures StrictlyAscending(w.liftCoefficientKnots) && CurveWellFormed(w)
    {
      AdjacentStrict(w.liftCoefficientKnots);
    }
  }

  /** Strictly rising adjacent knots are strictly ascending overall. */
  lemma AdjacentStrict(k: seq<real>)
    requires forall i :: 0 <= i < |k| - 1 ==> k[i] < k[i + 1]
    ensures StrictlyAscending(k) && Sorted(k)
  {
    forall i, j | 0 <= i < j < |k| ensures k[i] < k[j] {
      AdjacentStrictPair(k, i, j);
    }
  }

  lemma {:induction false} AdjacentStrictPair(k: seq<real>, i: nat, j: nat)
    requires forall i :: 0 <= i < |k| - 1 ==> k[i] < k[i + 1]
    requires i < j < |k|
    ensures k[i] < k[j]
    decreases j - i
  {
    if i + 1 < j {
      AdjacentStrictPair(k, i + 1, j);
    }
  }

  /** The default vertical-tail curve is odd: its lift changes sign with the angle. */
  lemma DefaultVerticalTailOdd(t: real)
    requires -90.0 <= t <= 90.0
    ensures var c := LiftCoefficientCurve(DefaultVerticalTail).value; Eval(c, -t) == -Eval(c, t)
  {
    DefaultCurvesWellFormed();
    var c := Linear(DefaultVerticalTail.liftCoefficientKnots, DefaultVerticalTail.liftCoefficientElements);
    EvalOdd(c, t);
  }
}
