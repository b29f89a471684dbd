/** The calibration objective of DESCalibration.kt: a candidate point
    (alpha, beta) is scored by smoothing the data with those factors and
    summing the finite squared errors. */
module Calibration {
  import opened Wrappers
  import opened Smoothing
  import opened Objectives
  import opened Reals

  /** `max(0, min(1, x))`: `x` clamped into [0, 1]. */
  function Clamp01(x: real): (r: real)
    ensures 0.0 <= r <= 1.0
    ensures 0.0 <= x <= 1.0 ==> r == x
    ensures x < 0.0 ==> r == 0.0
    ensures x > 1.0 ==> r == 1.0
  {
    Max(0.0, Min(1.0, x))
  }

  /** The sum, over the samples in order, of the smoother's squared error
      after each sample; NaN errors are skipped. */
  function SumOfSquaredErrors(alpha: real, beta: real, data: seq<Option<real>>): (r: real)
    ensures r >= 0.0
  {
    if data == [] then 0.0
    else
      var before := SumOfSquaredErrors(alpha, beta, data[..|data| - 1]);
      var sqError := SquaredError(Feed(alpha, beta, Start, data));
      if sqError.Some? then before + sqError.value else before
  }

  /** The objective's value at `point`, whose first two coordinates are
      alpha and beta. */
  function ObjectiveValue(point: seq<real>, data: seq<Option<real>>): (r: real)
    requires |point| >= 2
    ensures r >= 0.0
  {
    SumOfSquaredErrors(Clamp01(point[0]), Clamp01(point[1]), data)
  }

  /** The objective lambda: clamp, build a smoother (whose checks the clamped
      factors always pass), add every sample and accumulate the finite
      squared errors. */
  method Objective(point: seq<real>, data: seq<Option<real>>) returns (sumOfSquaredErrors: real)
    requires |point| >= 2
    ensures sumOfSquaredErrors == ObjectiveValue(point, data)
  {
    var alpha := Clamp01(point[0]);
    var beta := Clamp01(point[1]);
    var des := new DoubleExponentialSmoothing(alpha, beta);
    sumOfSquaredErrors := 0.0;
    for i := 0 to |data|
      invariant des.Valid() && des.alpha == alpha && des.beta == beta
      invariant des.State() == Feed(alpha, beta, Start, data[..i])
      invariant sumOfSquaredErrors == SumOfSquaredErrors(alpha, beta, data[..i])
    {
      des.Add(data[i]);
      assert data[..i + 1][..i] == data[..i];
      var sqError := des.GetSquaredError();
      if sqError.Some? {
        sumOfSquaredErrors := sumOfSquaredErrors + sqError.value;
      }
    }
    assert data[..|data|] == data;
  }

  /** The function handed to the swarm: two dimensions, each [0, 1]. */
  function CalibrationFunction(data: seq<Option<real>>): (fn: OptimizableFunction)
    ensures fn.domains == [Range(0.0, 1.0), Range(0.0, 1.0)]
    ensures fn.Valid()
    ensures forall p :: |p| == 2 ==> fn.f(p) == ObjectiveValue(p, data)
  {
    MakeFunction(1, Some([Range(0.0, 1.0), Range(0.0, 1.0)]),
                 p requires |p| >= 2 => ObjectiveValue(p, data))
  }

  /** A point outside the unit square scores the same as the point clamped
      into it. */
  lemma ClampedPointScoresSame(point: seq<real>, data: seq<Option<real>>)
    requires |point| >= 2
    ensures ObjectiveValue(point, data) == ObjectiveValue([Clamp01(point[0]), Clamp01(point[1])], data)
  {
  }

  /** A constant series is predicted without error, whatever the factors. */
  lemma {:induction false} ConstantDataScoresZero(alpha: real, beta: real, c: real, n: nat)
    ensures SumOfSquaredErrors(alpha, beta, Constant(c, n)) == 0.0
  {
    if n > 0 {
      var cs := Constant(c, n);
      assert cs[..n - 1] == Constant(c, n - 1);
      ConstantDataScoresZero(alpha, beta, c, n - 1);
      ConstantSeries(alpha, beta, c, n);
    }
  }
}
