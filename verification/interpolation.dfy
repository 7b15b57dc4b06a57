/**
 The one-axis arithmetic of the bilinear lookup: `floor`/`ceil` of a
 coordinate, the `fmod`-based fractional weights, and the weighted blend of
 two neighbouring values. Coordinates are exact reals; only non-negative
 coordinates are split, which is where `fmod(c, 1.0)` equals `c - floor(c)`.
 */
module Interpolation {

  /** The C library's `ceil`, over exact reals: the least integer not below `x`. */
  function Ceil(x: real): (c: int)
    ensures x <= c as real < x + 1.0
    ensures c == x.Floor || c == x.Floor + 1
    ensures c == x.Floor <==> x == x.Floor as real
  {
    if x == x.Floor as real then x.Floor else x.Floor + 1
  }

  /** The C library's `fmod(x, 1.0)` for `x >= 0`: what is left of `x` above its floor. */
  function Frac(x: real): (f: real)
    requires 0.0 <= x
    ensures 0.0 <= f < 1.0
    ensures x == x.Floor as real + f
    ensures f == 0.0 <==> x == x.Floor as real
  {
    x - x.Floor as real
  }

  /**
   One axis of the lookup: the two grid lines around a coordinate and the
   weight each of them receives (`higher_scale`, `lower_scale` in the source).
   */
  datatype Axis = Axis(lower: int, higher: int, lowerScale: real, higherScale: real)
  {
    /** The grid lines are adjacent or equal, and the weights are convex. */
    predicate WellFormed() {
      (higher == lower || higher == lower + 1)
      && 0.0 <= higherScale <= 1.0
      && 0.0 <= lowerScale <= 1.0
      && lowerScale + higherScale == 1.0
    }

    /** The point on the axis that the weights select. */
    function Point(): real {
      lower as real * lowerScale + higher as real * higherScale
    }
  }

  /** Splits a non-negative coordinate into its bracketing grid lines and weights. */
  function Split(coord: real): (a: Axis)
    requires 0.0 <= coord
    ensures a.lower == coord.Floor && a.higher == Ceil(coord)
    ensures a.higherScale == Frac(coord)
    ensures a.WellFormed()
    ensures 0 <= a.lower
    ensures a.lower as real <= coord <= a.higher as real
    ensures a.lower as real <= coord < a.lower as real + 1.0
    ensures a.higher == a.lower <==> coord == a.lower as real
  {
    var f := Frac(coord);
    Axis(coord.Floor, Ceil(coord), 1.0 - f, f)
  }

  /** The weights of a split select the coordinate itself between its two grid lines. */
  lemma SplitReconstructs(coord: real)
    requires 0.0 <= coord
    ensures Split(coord).Point() == coord
  {
    var a := Split(coord);
    var f := a.higherScale;
    if f == 0.0 {
      assert a.higher == a.lower;
    } else {
      assert a.higher == a.lower + 1;
      calc {
        a.Point();
        == a.lower as real * (1.0 - f) + (a.lower as real + 1.0) * f;
        == a.lower as real + f;
      }
    }
  }

  /** At a whole-number coordinate all the weight sits on that grid line. */
  lemma SplitAtGridLine(k: nat)
    ensures Split(k as real) == Axis(k, k, 1.0, 0.0)
  {
  }

  /** Half-way between two grid lines the weights are equal. */
  lemma SplitAtMidpoint(k: nat)
    ensures Split(k as real + 0.5) == Axis(k, k + 1, 0.5, 0.5)
  {
    assert (k as real + 0.5).Floor == k;
  }

  /** `higher * higherScale + lower * lowerScale`: the weighted mix of the values at the two grid lines. */
  function Blend(a: Axis, lowValue: real, highValue: real): (v: real)
    requires a.WellFormed()
    ensures lowValue <= highValue ==> lowValue <= v <= highValue
    ensures highValue <= lowValue ==> highValue <= v <= lowValue
    ensures lowValue == highValue ==> v == lowValue
  {
    var v := highValue * a.higherScale + lowValue * a.lowerScale;
    BlendBetween(a, lowValue, highValue);
    v
  }

  /** A convex mix of two values lies between them. */
  lemma BlendBetween(a: Axis, lowValue: real, highValue: real)
    requires a.WellFormed()
    ensures var v := highValue * a.higherScale + lowValue * a.lowerScale;
      Min(lowValue, highValue) <= v <= Max(lowValue, highValue)
  {
    var t, u := a.higherScale, a.lowerScale;
    if lowValue <= highValue {
      MixBetween(lowValue, highValue, t, u);
    } else {
      MixBetween(highValue, lowValue, u, t);
    }
  }

  /** Moving from `from` toward `to` by a weight in [0, 1] stays between the two. */
  lemma MixBetween(from: real, to: real, t: real, u: real)
    requires from <= to && 0.0 <= t <= 1.0 && u == 1.0 - t
    ensures from <= to * t + from * u <= to
  {
    assert from * u == from - from * t;
    assert to * t + from * u == from + (to - from) * t;
    ScaledBetween(to - from, t);
  }

  /** Scaling a non-negative distance by a weight in [0, 1] keeps it within [0, distance]. */
  lemma ScaledBetween(d: real, t: real)
    requires 0.0 <= d && 0.0 <= t <= 1.0
    ensures 0.0 <= d * t <= d
  {
    assert d - d * t == d * (1.0 - t);
    assert 0.0 <= d * (1.0 - t);
  }

  /** Blending samples of a straight line yields the line at the selected point. */
  lemma BlendOfLine(a: Axis, slope: real, offset: real)
    requires a.WellFormed()
    ensures Blend(a, slope * a.lower as real + offset, slope * a.higher as real + offset)
         == slope * a.Point() + offset
  {
    var lo := a.lower as real;
    var hi := a.higher as real;
    var hs, ls := a.higherScale, a.lowerScale;
    assert hs + ls == 1.0;
    assert a.Point() == lo * ls + hi * hs;
    calc {
      Blend(a, slope * lo + offset, slope * hi + offset);
      == (slope * hi + offset) * hs + (slope * lo + offset) * ls;
      == slope * (hi * hs) + slope * (lo * ls) + offset * (hs + ls);
      == slope * (lo * ls + hi * hs) + offset;
      == slope * a.Point() + offset;
    }
  }

  function Min(x: real, y: real): real {
    if x <= y then x else y
  }

  function Max(x: real, y: real): real {
    if x <= y then y else x
  }
}
