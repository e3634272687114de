/** The measurement-to-current transfer functions of the sensors
    (RaycastSensor.ProcessDistance and HeadingErrorSensor.calculateCurrent).
    Both are three-branch piecewise maps: at or beyond the upper bound a
    constant, strictly between the bounds a tanh sigmoid, at or below the lower
    bound another constant. tanh is a parameter; see `Prims.IsTanh`. */
module Transfer {
  import opened Prims

  /** RaycastSensor's serialized transfer-function fields. */
  datatype DistanceParams = DistanceParams(
    iMin: real, iMax: real, xMin: real, xMax: real,
    a1: real, b1: real, c1: real, eccentricity: real)

  /** The field initialisers of RaycastSensor. */
  const DefaultDistanceParams: DistanceParams :=
    DistanceParams(0.0, 1.0, 0.0, 10.0, 0.95, 1.35, 0.85, 4.5)

  /** HeadingErrorSensor's transfer-function fields. */
  datatype AngleParams = AngleParams(
    iMin: real, iMax: real, minAngle: real, maxAngle: real, eccentricity: real)

  /** The field initialisers of HeadingErrorSensor. */
  const DefaultAngleParams: AngleParams := AngleParams(0.0, 1.0, 0.0, 10.0, 4.5)

  /** The midpoint of the current range: amplitude/2 + Imin. */
  function Height(iMin: real, iMax: real): real {
    (iMax - iMin) / 2.0 + iMin
  }

  /** The tanh argument (center - x) / range, with
      center = (upper - lower)/2 + lower and range = (upper - lower)/eccentricity.
      With eccentricity 0 the float `range` is an infinity and the quotient is 0. */
  function SigmoidArgument(lower: real, upper: real, eccentricity: real, x: real): real
    requires lower < upper
  {
    var center := (upper - lower) / 2.0 + lower;
    if eccentricity == 0.0 then 0.0 else (center - x) / ((upper - lower) / eccentricity)
  }

  /** The middle branch shared by both sensors:
      gain * (amplitude/2) * tanh(argument) + height. */
  function Sigmoid(tanh: TanhFn, gain: real, iMin: real, iMax: real,
                   lower: real, upper: real, eccentricity: real, x: real): real
    requires lower < upper
  {
    gain * ((iMax - iMin) / 2.0) * tanh(SigmoidArgument(lower, upper, eccentricity, x)) + Height(iMin, iMax)
  }

  /** RaycastSensor.ProcessDistance: the current injected for a distance. */
  function CurrentFromDistance(p: DistanceParams, tanh: TanhFn, distance: real): (r: real)
    ensures distance >= p.xMax ==> r == p.a1 * p.iMin
    ensures distance < p.xMax && distance <= p.xMin ==> r == p.c1 * p.iMax
    ensures IsTanh(tanh) && p.xMin < distance < p.xMax ==>
      Abs(r - Height(p.iMin, p.iMax)) <= Abs(p.b1 * (p.iMax - p.iMin) / 2.0)
    ensures IsTanh(tanh) && p.xMin < distance < p.xMax && p.b1 * (p.iMax - p.iMin) != 0.0 ==>
      Abs(r - Height(p.iMin, p.iMax)) < Abs(p.b1 * (p.iMax - p.iMin) / 2.0)
  {
    if distance >= p.xMax then
      p.a1 * p.iMin
    else if distance > p.xMin then
      SigmoidBound(tanh, p.b1, p.iMin, p.iMax, p.xMin, p.xMax, p.eccentricity, distance);
      Sigmoid(tanh, p.b1, p.iMin, p.iMax, p.xMin, p.xMax, p.eccentricity, distance)
    else
      p.c1 * p.iMax
  }

  /** HeadingErrorSensor.calculateCurrent: the current injected for an angle error. */
  function CurrentFromAngle(p: AngleParams, tanh: TanhFn, error: real): (r: real)
    ensures error >= p.maxAngle ==> r == p.iMin
    ensures error < p.maxAngle && error <= p.minAngle ==> r == p.iMax
    ensures IsTanh(tanh) && p.minAngle < error < p.maxAngle ==>
      Abs(r - Height(p.iMin, p.iMax)) <= Abs((p.iMax - p.iMin) / 2.0)
  {
    if error >= p.maxAngle then
      p.iMin
    else if error > p.minAngle then
      SigmoidBound(tanh, 1.0, p.iMin, p.iMax, p.minAngle, p.maxAngle, p.eccentricity, error);
      Sigmoid(tanh, 1.0, p.iMin, p.iMax, p.minAngle, p.maxAngle, p.eccentricity, error)
    else
      p.iMax
  }

  /** The sigmoid never leaves height +- |gain * amplitude / 2|, and stays
      strictly inside when that half-width is not zero. */
  lemma SigmoidBound(tanh: TanhFn, gain: real, iMin: real, iMax: real,
                     lower: real, upper: real, eccentricity: real, x: real)
    requires lower < upper
    ensures var k := gain * ((iMax - iMin) / 2.0);
      var dev := Sigmoid(tanh, gain, iMin, iMax, lower, upper, eccentricity, x) - Height(iMin, iMax);
      IsTanh(tanh) ==> Abs(dev) <= Abs(k) && (k != 0.0 ==> Abs(dev) < Abs(k))
  {
    var k := gain * ((iMax - iMin) / 2.0);
    var t := tanh(SigmoidArgument(lower, upper, eccentricity, x));
    assert gain * (iMax - iMin) / 2.0 == k;
    if IsTanh(tanh) {
      assert -1.0 < t < 1.0;
      ProductBound(k, t);
    }
  }

  lemma ProductBound(k: real, t: real)
    requires -1.0 < t < 1.0
    ensures Abs(k * t) <= Abs(k)
    ensures k != 0.0 ==> Abs(k * t) < Abs(k)
  {
    if k > 0.0 {
      assert k * t < k * 1.0 && k * t > k * -1.0;
    } else if k < 0.0 {
      assert k * t > k * 1.0 && k * t < k * -1.0;
    }
  }

  /** With a positive eccentricity the tanh argument falls as the measurement grows. */
  lemma ArgumentAntitone(lower: real, upper: real, eccentricity: real, x1: real, x2: real)
    requires lower < upper && eccentricity > 0.0 && x1 <= x2
    ensures SigmoidArgument(lower, upper, eccentricity, x1) >= SigmoidArgument(lower, upper, eccentricity, x2)
  {
    var center := (upper - lower) / 2.0 + lower;
    var range := (upper - lower) / eccentricity;
    assert range > 0.0;
    assert (center - x1) / range - (center - x2) / range == (x2 - x1) / range;
  }

  /** In the middle branch a non-negative gain*amplitude makes the sigmoid
      non-increasing in the measurement. */
  lemma {:induction false} SigmoidAntitone(tanh: TanhFn, gain: real, iMin: real, iMax: real,
                                          lower: real, upper: real, eccentricity: real, x1: real, x2: real)
    requires IsTanh(tanh)
    requires lower < upper && eccentricity > 0.0 && x1 <= x2
    requires gain * (iMax - iMin) >= 0.0
    ensures Sigmoid(tanh, gain, iMin, iMax, lower, upper, eccentricity, x1)
         >= Sigmoid(tanh, gain, iMin, iMax, lower, upper, eccentricity, x2)
  {
    var a1 := SigmoidArgument(lower, upper, eccentricity, x1);
    var a2 := SigmoidArgument(lower, upper, eccentricity, x2);
    ArgumentAntitone(lower, upper, eccentricity, x1, x2);
    assert tanh(a2) <= tanh(a1);
    var k := gain * ((iMax - iMin) / 2.0);
    assert k >= 0.0 by {
      assert k == (gain * (iMax - iMin)) / 2.0;
    }
    assert k * tanh(a1) - k * tanh(a2) == k * (tanh(a1) - tanh(a2));
  }

  /** Between xmin and xmax the distance current is non-increasing in the
      distance when b1 * amplitude >= 0 and the eccentricity is positive. */
  lemma DistanceMidBranchAntitone(p: DistanceParams, tanh: TanhFn, d1: real, d2: real)
    requires IsTanh(tanh)
    requires p.eccentricity > 0.0 && p.b1 * (p.iMax - p.iMin) >= 0.0
    requires p.xMin < d1 <= d2 < p.xMax
    ensures CurrentFromDistance(p, tanh, d1) >= CurrentFromDistance(p, tanh, d2)
  {
    SigmoidAntitone(tanh, p.b1, p.iMin, p.iMax, p.xMin, p.xMax, p.eccentricity, d1, d2);
  }

  /** The far and near constants bracket the sigmoid's range. */
  ghost predicate EdgesBracketSigmoid(p: DistanceParams) {
    var k := p.b1 * (p.iMax - p.iMin) / 2.0;
    p.a1 * p.iMin <= Height(p.iMin, p.iMax) - k && Height(p.iMin, p.iMax) + k <= p.c1 * p.iMax
  }

  /** Over the whole distance domain the current is non-increasing whenever
      the edge constants bracket the sigmoid. The shipped coefficients
      (a1 = 0.95, b1 = 1.35, c1 = 0.85) do not. Just above xmin the tanh
      argument tends to 5 / (10 / 4.5) = 2.25, so the sigmoid approaches
      0.675 * tanh(2.25) + 0.5, about 1.160, while c1 * Imax = 0.85: the
      current jumps up as the distance rises past xmin. Just below xmax it
      approaches about -0.160, and at xmax it jumps up again to a1 * Imin = 0. */
  lemma DistanceCurrentAntitone(p: DistanceParams, tanh: TanhFn, d1: real, d2: real)
    requires IsTanh(tanh)
    requires p.xMin < p.xMax && p.eccentricity > 0.0 && p.b1 * (p.iMax - p.iMin) >= 0.0
    requires EdgesBracketSigmoid(p)
    requires d1 <= d2
    ensures CurrentFromDistance(p, tanh, d1) >= CurrentFromDistance(p, tanh, d2)
  {
    if p.xMin < d1 && d2 < p.xMax {
      DistanceMidBranchAntitone(p, tanh, d1, d2);
    } else {
      DistanceCurrentBand(p, tanh, d1);
      DistanceCurrentBand(p, tanh, d2);
    }
  }

  /** Under the bracketing condition every current lies in [a1*Imin, c1*Imax],
      and middle-branch currents lie in [height - k, height + k]. */
  lemma DistanceCurrentBand(p: DistanceParams, tanh: TanhFn, d: real)
    requires IsTanh(tanh)
    requires p.xMin < p.xMax && p.b1 * (p.iMax - p.iMin) >= 0.0
    requires EdgesBracketSigmoid(p)
    ensures var k := p.b1 * (p.iMax - p.iMin) / 2.0;
      var f := CurrentFromDistance(p, tanh, d);
      && (p.xMin < d < p.xMax ==> Height(p.iMin, p.iMax) - k <= f <= Height(p.iMin, p.iMax) + k)
      && p.a1 * p.iMin <= f <= p.c1 * p.iMax
  {
    var m := p.b1 * (p.iMax - p.iMin);
    var k := m / 2.0;
    var h := Height(p.iMin, p.iMax);
    var lo, hi := p.a1 * p.iMin, p.c1 * p.iMax;
    var f := CurrentFromDistance(p, tanh, d);
    assert lo <= h - k && h + k <= hi;
    if p.xMin < d < p.xMax {
      assert Abs(f - h) <= Abs(k);
      BandFromDeviation(f, h, k, lo, hi);
    } else {
      assert f == lo || f == hi;
      BandFromDeviation(h, h, k, lo, hi);
    }
  }

  /** A value within k of h, for k >= 0, lies in any band that holds [h - k, h + k]. */
  lemma BandFromDeviation(f: real, h: real, k: real, lo: real, hi: real)
    requires Abs(f - h) <= Abs(k) && k == Abs(k)
    requires lo <= h - k && h + k <= hi
    ensures h - k <= f <= h + k
    ensures lo <= f <= hi && lo <= hi
  {
  }

  /** The heading current is non-increasing in the error over the whole domain
      whenever Imin <= Imax: its edge constants are exactly the sigmoid's limits. */
  lemma AngleCurrentAntitone(p: AngleParams, tanh: TanhFn, e1: real, e2: real)
    requires IsTanh(tanh)
    requires p.minAngle < p.maxAngle && p.eccentricity > 0.0 && p.iMin <= p.iMax
    requires e1 <= e2
    ensures CurrentFromAngle(p, tanh, e1) >= CurrentFromAngle(p, tanh, e2)
  {
    var k := (p.iMax - p.iMin) / 2.0;
    var h := Height(p.iMin, p.iMax);
    assert h + k == p.iMax && h - k == p.iMin;
    if p.minAngle < e1 && e2 < p.maxAngle {
      SigmoidAntitone(tanh, 1.0, p.iMin, p.iMax, p.minAngle, p.maxAngle, p.eccentricity, e1, e2);
    } else if p.minAngle < e1 < p.maxAngle {
      assert Abs(CurrentFromAngle(p, tanh, e1) - h) <= k;
    } else if p.minAngle < e2 < p.maxAngle {
      assert Abs(CurrentFromAngle(p, tanh, e2) - h) <= k;
    }
  }
}
