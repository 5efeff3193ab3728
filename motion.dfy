/**
 * Keyframe interpolation as done by framer-motion's `useTransform(value, input, output)`
 * with its default clamping. The library itself is not part of this model: `Interpolate`
 * is the behaviour it is ASSUMED to have (clamped piecewise-linear interpolation), and
 * everything proved about opacity, parallax offsets and the frame index rests on it.
 */
module Motion {

  /** Keyframe input points that are never out of order. */
  predicate NonDecreasing(xs: seq<real>)
  {
    forall i, j :: 0 <= i < j < |xs| ==> xs[i] <= xs[j]
  }

  /** Keyframe input points that are strictly increasing. */
  predicate Increasing(xs: seq<real>)
  {
    forall i, j :: 0 <= i < j < |xs| ==> xs[i] < xs[j]
  }

  /** The point of the straight line through (x0, y0) and (x1, y1) above p. */
  function Lerp(x0: real, x1: real, y0: real, y1: real, p: real): real
    requires x0 < x1
  {
    y0 + (y1 - y0) * ((p - x0) / (x1 - x0))
  }

  /**
   * Clamped piecewise-linear interpolation: below the first input point the first output,
   * above the last input point the last output, and in between the straight line through
   * the two neighbouring keyframes.
   */
  function Interpolate(xs: seq<real>, ys: seq<real>, p: real): (r: real)
    requires |xs| == |ys| >= 1 && NonDecreasing(xs)
    ensures p <= xs[0] ==> r == ys[0]
    ensures Increasing(xs) && xs[|xs| - 1] <= p ==> r == ys[|ys| - 1]
    decreases |xs|
  {
    if |xs| == 1 || p <= xs[0] then ys[0]
    else if p < xs[1] then Lerp(xs[0], xs[1], ys[0], ys[1], p)
    else Interpolate(xs[1..], ys[1..], p)
  }

  lemma MulNonNeg(a: real, b: real)
    requires 0.0 <= a && 0.0 <= b
    ensures 0.0 <= a * b
  {
  }

  lemma MulMono(c: real, a: real, b: real)
    requires 0.0 <= c && a <= b
    ensures c * a <= c * b
  {
    MulNonNeg(c, b - a);
  }

  lemma DivMono(a: real, b: real, d: real)
    requires 0.0 < d && a <= b
    ensures a / d <= b / d
  {
    assert a / d == a * (1.0 / d);
    assert b / d == b * (1.0 / d);
    MulMono(1.0 / d, a, b);
  }

  /** A proper fraction: 0 < a/b < 1 for 0 < a < b. */
  lemma DivUnit(a: real, b: real)
    requires 0.0 < a < b
    ensures 0.0 < a / b < 1.0
  {
    assert b / b == 1.0;
    assert (b - a) / b == b / b - a / b;
    assert 0.0 < (b - a) / b;
  }

  /** Between its two end points the line stays between their outputs. */
  lemma LerpWithin(x0: real, x1: real, y0: real, y1: real, p: real, lo: real, hi: real)
    requires x0 < p < x1
    requires lo <= y0 <= hi && lo <= y1 <= hi
    ensures lo <= Lerp(x0, x1, y0, y1, p) <= hi
  {
    var t := (p - x0) / (x1 - x0);
    DivUnit(p - x0, x1 - x0);
    assert Lerp(x0, x1, y0, y1, p) == y0 + (y1 - y0) * t;
    if y0 <= y1 {
      MulNonNeg(y1 - y0, t);
      MulMono(y1 - y0, t, 1.0);
      assert y0 <= y0 + (y1 - y0) * t <= y1;
    } else {
      MulNonNeg(y0 - y1, t);
      MulMono(y0 - y1, t, 1.0);
      assert (y1 - y0) * t == -((y0 - y1) * t);
      assert y1 <= y0 + (y1 - y0) * t <= y0;
    }
  }

  /** The line through two points moves in the direction of its outputs. */
  lemma LerpMonotone(x0: real, x1: real, y0: real, y1: real, p: real, q: real)
    requires x0 < x1 && p <= q
    ensures y0 <= y1 ==> Lerp(x0, x1, y0, y1, p) <= Lerp(x0, x1, y0, y1, q)
    ensures y1 <= y0 ==> Lerp(x0, x1, y0, y1, q) <= Lerp(x0, x1, y0, y1, p)
  {
    var tp, tq := (p - x0) / (x1 - x0), (q - x0) / (x1 - x0);
    DivMono(p - x0, q - x0, x1 - x0);
    if y0 <= y1 {
      MulMono(y1 - y0, tp, tq);
    }
    if y1 <= y0 {
      MulMono(y0 - y1, tp, tq);
    }
  }

  /** The interpolated value never leaves a band that holds every keyframe output. */
  lemma {:induction false} InterpolateWithin(xs: seq<real>, ys: seq<real>, p: real, lo: real, hi: real)
    requires |xs| == |ys| >= 1 && NonDecreasing(xs)
    requires forall k :: 0 <= k < |ys| ==> lo <= ys[k] <= hi
    ensures lo <= Interpolate(xs, ys, p) <= hi
    decreases |xs|
  {
    if |xs| == 1 || p <= xs[0] {
      assert lo <= ys[0] <= hi;
    } else if p < xs[1] {
      assert lo <= ys[0] <= hi && lo <= ys[1] <= hi;
      LerpWithin(xs[0], xs[1], ys[0], ys[1], p, lo, hi);
    } else {
      assert forall k :: 0 <= k < |ys[1..]| ==> ys[1..][k] == ys[k + 1];
      InterpolateWithin(xs[1..], ys[1..], p, lo, hi);
    }
  }

  /**
   * On a segment [xs[k], xs[k+1]] of strictly increasing input points the value is the
   * straight line through the two keyframes.
   */
  lemma {:induction false} InterpolateOnSegment(xs: seq<real>, ys: seq<real>, p: real, k: nat)
    requires |xs| == |ys| && Increasing(xs)
    requires k + 1 < |xs| && xs[k] <= p <= xs[k + 1]
    ensures NonDecreasing(xs)
    ensures Interpolate(xs, ys, p) == Lerp(xs[k], xs[k + 1], ys[k], ys[k + 1], p)
    decreases k
  {
    var xs', ys' := xs[1..], ys[1..];
    assert Increasing(xs') by {
      forall i, j | 0 <= i < j < |xs'| ensures xs'[i] < xs'[j] {
        assert xs'[i] == xs[i + 1] && xs'[j] == xs[j + 1];
      }
    }
    if k == 0 {
      if p == xs[0] {
        assert (p - xs[0]) / (xs[1] - xs[0]) == 0.0;
        assert Lerp(xs[0], xs[1], ys[0], ys[1], p) == ys[0];
      }
      if p == xs[1] {
        assert (p - xs[0]) / (xs[1] - xs[0]) == 1.0;
        assert Lerp(xs[0], xs[1], ys[0], ys[1], p) == ys[1];
        assert Interpolate(xs, ys, p) == Interpolate(xs', ys', p);
        assert Interpolate(xs', ys', p) == ys'[0];
      }
    } else {
      assert xs[0] < xs[1] <= xs[k] <= p;
      InterpolateOnSegment(xs', ys', p, k - 1);
      assert xs'[k - 1] == xs[k] && xs'[k] == xs[k + 1];
      assert ys'[k - 1] == ys[k] && ys'[k] == ys[k + 1];
      assert Interpolate(xs, ys, p) == Interpolate(xs', ys', p);
    }
  }

  /**
   * Interpolating between two keyframes is monotone: it follows the direction of the
   * outputs as the input grows.
   */
  lemma TwoPointMonotone(x0: real, x1: real, y0: real, y1: real, p: real, q: real)
    requires x0 < x1 && p <= q
    ensures y0 <= y1 ==> Interpolate([x0, x1], [y0, y1], p) <= Interpolate([x0, x1], [y0, y1], q)
    ensures y1 <= y0 ==> Interpolate([x0, x1], [y0, y1], q) <= Interpolate([x0, x1], [y0, y1], p)
  {
    var xs, ys := [x0, x1], [y0, y1];
    var lo, hi := if y0 <= y1 then y0 else y1, if y0 <= y1 then y1 else y0;
    InterpolateWithin(xs, ys, p, lo, hi);
    InterpolateWithin(xs, ys, q, lo, hi);
    if x0 <= p <= x1 && x0 <= q <= x1 {
      InterpolateOnSegment(xs, ys, p, 0);
      InterpolateOnSegment(xs, ys, q, 0);
      LerpMonotone(x0, x1, y0, y1, p, q);
    }
  }
}
