/** Double exponential smoothing (DoubleExponentialSmoothing.kt): an online
    level/trend smoother over a stream of samples.

    Kotlin `Float` values are modelled as reals; `None` is NaN, and a sample
    that is not finite is given as `None`. */
module Smoothing {
  import opened Wrappers

  /** The smoother's four fields. */
  datatype DesState = DesState(
    data: Option<real>,
    smoothedData: Option<real>,
    trend: Option<real>,
    level: Option<real>)

  /** A new smoother: every field is NaN. */
  const Start := DesState(None, None, None, None)

  /** The constructor's checks: both factors lie in [0,1]. */
  predicate ParamsOk(alpha: real, beta: real) {
    0.0 <= alpha <= 1.0 && 0.0 <= beta <= 1.0
  }

  /** What every state reached through `add` satisfies: `smoothedData` is
      NaN exactly when `data` is, and once there is a trend there are also a
      level and a last sample. */
  predicate Consistent(s: DesState) {
    && (s.data.Some? <==> s.smoothedData.Some?)
    && (s.trend.Some? ==> s.data.Some? && s.level.Some?)
  }

  /** The three states of the smoother. */
  datatype Phase = Reset | Bootstrapping | Steady

  function PhaseOf(s: DesState): Phase {
    if s.data.None? then Reset
    else if s.trend.None? then Bootstrapping
    else Steady
  }

  /** `add(sample)`: a hard reset when there is no last sample or the sample
      is not finite; otherwise the first sample after a reset fixes the trend;
      otherwise a steady smoothing step, which blends the PREVIOUS sample
      `data` into the level and only then records the new sample. */
  function Step(alpha: real, beta: real, s: DesState, sample: Option<real>): (r: DesState)
    requires Consistent(s)
    ensures Consistent(r)
  {
    if s.data.None? || sample.None? then
      DesState(sample, sample, None, s.level)
    else if s.trend.None? then
      DesState(sample, s.smoothedData, Some(sample.value - s.data.value), s.data)
    else
      var nextLevel := NextLevel(alpha, s.data.value, s.level.value, s.trend.value);
      DesState(sample, Some(s.trend.value + s.level.value),
               Some(NextTrend(beta, nextLevel, s.level.value, s.trend.value)), Some(nextLevel))
  }

  /** The steady step's new level: the previous sample weighted by alpha, the
      forecast by 1 - alpha. */
  function NextLevel(alpha: real, data: real, level: real, trend: real): real {
    alpha * data + (1.0 - alpha) * (level + trend)
  }

  /** The steady step's new trend: the level change weighted by beta, the old
      trend by 1 - beta. */
  function NextTrend(beta: real, nextLevel: real, level: real, trend: real): real {
    beta * (nextLevel - level) + (1.0 - beta) * trend
  }

  /** The state after adding every sample of `samples`, in order. */
  function Feed(alpha: real, beta: real, s: DesState, samples: seq<Option<real>>): (r: DesState)
    requires Consistent(s)
    ensures Consistent(r)
  {
    if samples == [] then s
    else Step(alpha, beta, Feed(alpha, beta, s, samples[..|samples| - 1]), samples[|samples| - 1])
  }

  /** `getNextPredicted`: level plus trend; NaN as soon as either is. */
  function NextPredicted(s: DesState): (r: Option<real>)
    ensures r.Some? <==> s.level.Some? && s.trend.Some?
    ensures r.Some? ==> r.value == s.level.value + s.trend.value
  {
    if s.level.Some? && s.trend.Some? then Some(s.level.value + s.trend.value) else None
  }

  /** `get(pct)`: the blend of the smoothed value and the forecast; NaN as soon
      as either is. */
  function Interpolate(s: DesState, pct: real): (r: Option<real>)
    ensures r.Some? <==> s.smoothedData.Some? && s.level.Some? && s.trend.Some?
    ensures r.Some? ==>
              r.value == s.smoothedData.value
                         + pct * (s.level.value + s.trend.value - s.smoothedData.value)
  {
    var forecast := NextPredicted(s);
    if s.smoothedData.Some? && forecast.Some? then
      BlendForm(s.smoothedData.value, forecast.value, pct);
      Some(Blend(s.smoothedData.value, forecast.value, pct))
    else None
  }

  /** The weighted mix `get` returns: `a` weighted by 1 - pct, `b` by pct. */
  function Blend(a: real, b: real, pct: real): real {
    (1.0 - pct) * a + pct * b
  }

  /** `getSquaredError`: the squared distance between the smoothed value and
      the last sample. */
  function SquaredError(s: DesState): (r: Option<real>)
    requires Consistent(s)
    ensures r.Some? <==> s.data.Some?
    ensures r.Some? ==> r.value >= 0.0
  {
    if s.smoothedData.Some? && s.data.Some? then
      Some(Square(s.smoothedData.value - s.data.value))
    else None
  }

  function Square(x: real): (r: real)
    ensures r >= 0.0
  {
    x * x
  }

  class DoubleExponentialSmoothing {
    const alpha: real
    const beta: real
    var data: Option<real>
    var smoothedData: Option<real>
    var trend: Option<real>
    var level: Option<real>

    function State(): DesState
      reads this
    {
      DesState(data, smoothedData, trend, level)
    }

    ghost predicate Valid()
      reads this
    {
      ParamsOk(alpha, beta) && Consistent(State())
    }

    /** The `require` checks on alpha and beta are the constructor's precondition. */
    constructor (alpha: real, beta: real)
      requires ParamsOk(alpha, beta)
      ensures Valid() && this.alpha == alpha && this.beta == beta
      ensures State() == Start
    {
      this.alpha, this.beta := alpha, beta;
      data, smoothedData, trend, level := None, None, None, None;
    }

    method Add(sample: Option<real>)
      requires Valid()
      modifies this
      ensures Valid()
      ensures State() == Step(alpha, beta, old(State()), sample)
    {
      if data.None? || sample.None? {
        // hard reset: a bad read, or the first sample
        data := sample;
        smoothedData := data;
        trend := None;
        return;
      }
      if trend.None? {
        // the sample after a reset
        trend := Some(sample.value - data.value);
        level := data;
        data := sample;
        return;
      }
      var d, l, t := data.value, level.value, trend.value;
      smoothedData := Some(t + l);
      var nextLevel := NextLevel(alpha, d, l, t);
      trend := Some(NextTrend(beta, nextLevel, l, t));
      level := Some(nextLevel);
      // the sample is recorded last
      data := sample;
    }

    /** `get(pctBetweenSamples)`: affine in its argument, from the smoothed
        value (at 0) to the forecast (at 1). */
    function Get(pctBetweenSamples: real): (r: Option<real>)
      reads this
      ensures r.Some? <==> smoothedData.Some? && level.Some? && trend.Some?
      ensures r.Some? ==>
                r.value == smoothedData.value
                           + pctBetweenSamples * (level.value + trend.value - smoothedData.value)
    {
      Interpolate(State(), pctBetweenSamples)
    }

    function GetNextPredicted(): (r: Option<real>)
      reads this
      ensures r.Some? <==> level.Some? && trend.Some?
      ensures r.Some? ==> r.value == level.value + trend.value
    {
      NextPredicted(State())
    }

    function GetSquaredError(): (r: Option<real>)
      requires Valid()
      reads this
      ensures r.Some? <==> data.Some?
      ensures r.Some? ==> r.value >= 0.0 && r.value == Square(smoothedData.value - data.value)
    {
      SquaredError(State())
    }
  }

  // ---------------------------------------------------------------------------
  // Properties

  /** The state machine: a non-finite sample always resets (keeping the
      level); a finite sample moves Reset to Bootstrapping, Bootstrapping to
      Steady, and keeps Steady. */
  lemma PhaseTransitions(alpha: real, beta: real, s: DesState, sample: Option<real>)
    requires Consistent(s)
    ensures var r := Step(alpha, beta, s, sample);
            && (sample.None? ==> PhaseOf(r) == Reset && r.level == s.level)
            && (sample.Some? && PhaseOf(s) == Reset ==>
                  PhaseOf(r) == Bootstrapping && r.data == r.smoothedData == sample && r.level == s.level)
            && (sample.Some? && PhaseOf(s) == Bootstrapping ==>
                  PhaseOf(r) == Steady && r.smoothedData == s.smoothedData && r.level == s.data
                  && r.trend == Some(sample.value - s.data.value))
            && (sample.Some? && PhaseOf(s) == Steady ==> PhaseOf(r) == Steady && r.data == sample)
  {
  }

  /** A steady step: the smoothed value becomes the forecast made before the
      step, the level moves a fraction alpha from that forecast toward the
      previous sample, and the trend a fraction beta toward the level change. */
  lemma SteadyStep(alpha: real, beta: real, s: DesState, x: real)
    requires Consistent(s) && PhaseOf(s) == Steady
    ensures var r := Step(alpha, beta, s, Some(x));
            var forecast := s.level.value + s.trend.value;
            && r.smoothedData == Some(forecast)
            && r.level.Some? && r.level.value == forecast + alpha * (s.data.value - forecast)
            && r.trend.Some?
            && r.trend.value == s.trend.value + beta * (r.level.value - s.level.value - s.trend.value)
            && r.data == Some(x)
  {
    var d, l, t := s.data.value, s.level.value, s.trend.value;
    SteadyFormulas(alpha, beta, d, l, t);
  }

  /** The two update formulas, rearranged as moves from the forecast and from
      the old trend. */
  lemma SteadyFormulas(alpha: real, beta: real, d: real, l: real, t: real)
    ensures NextLevel(alpha, d, l, t) == (l + t) + alpha * (d - (l + t))
    ensures NextTrend(beta, NextLevel(alpha, d, l, t), l, t)
            == t + beta * (NextLevel(alpha, d, l, t) - l - t)
  {
  }

  /** A non-finite sample in mid-stream throws the history away: the next two
      samples bootstrap exactly as they would on a new smoother. */
  lemma {:induction false} ResetReboots(alpha: real, beta: real, s: DesState, x: real, y: real)
    requires Consistent(s)
    ensures Feed(alpha, beta, s, [None, Some(x), Some(y)]) == Feed(alpha, beta, Start, [Some(x), Some(y)])
  {
    var three: seq<Option<real>> := [None, Some(x), Some(y)];
    var two: seq<Option<real>> := [Some(x), Some(y)];
    assert three[..2][..1] == [None] && three[..2] == [None, Some(x)];
    assert two[..1] == [Some(x)] && two[..1][..0] == [];
    assert three[..2][..1][..0] == [];
    var s1 := Step(alpha, beta, s, None);
    assert Feed(alpha, beta, s, [None]) == s1;
    assert Feed(alpha, beta, s, [None, Some(x)]) == DesState(Some(x), Some(x), None, s.level);
    assert Feed(alpha, beta, Start, [Some(x)]) == DesState(Some(x), Some(x), None, None);
  }

  /** `get(0)` is the smoothed value, `get(1)` the forecast, and in between
      `get` moves linearly from one to the other, staying between them. */
  lemma InterpolateEndpoints(s: DesState, pct: real)
    requires s.smoothedData.Some? && NextPredicted(s).Some?
    ensures Interpolate(s, 0.0) == s.smoothedData
    ensures Interpolate(s, 1.0) == NextPredicted(s)
    ensures Interpolate(s, pct).value
            == s.smoothedData.value + pct * (NextPredicted(s).value - s.smoothedData.value)
    ensures 0.0 <= pct <= 1.0 ==>
              var a, b := s.smoothedData.value, NextPredicted(s).value;
              var v := Interpolate(s, pct).value;
              (a <= b ==> a <= v <= b) && (b <= a ==> b <= v <= a)
  {
    var a, b := s.smoothedData.value, NextPredicted(s).value;
    BlendForm(a, b, pct);
    if 0.0 <= pct <= 1.0 {
      BlendBetween(a, b, pct);
    }
  }

  /** Between the end points, the blend stays between `a` and `b`. */
  lemma BlendBetween(a: real, b: real, pct: real)
    requires 0.0 <= pct <= 1.0
    ensures a <= b ==> a <= Blend(a, b, pct) <= b
    ensures b <= a ==> b <= Blend(a, b, pct) <= a
  {
    var m, n := pct * (b - a), (1.0 - pct) * (b - a);
    assert Blend(a, b, pct) == a + m;
    assert Blend(a, b, pct) == b - n;
    if a <= b {
      Between(pct, b - a);
      Between(1.0 - pct, b - a);
    } else {
      Between(pct, a - b);
      Between(1.0 - pct, a - b);
      assert m == -(pct * (a - b));
      assert n == -((1.0 - pct) * (a - b));
    }
  }

  /** The blend moves linearly from `a` (at 0) to `b` (at 1). */
  lemma BlendForm(a: real, b: real, pct: real)
    ensures Blend(a, b, pct) == a + pct * (b - a)
    ensures Blend(a, b, 0.0) == a && Blend(a, b, 1.0) == b
  {
  }

  /** A fraction of a non-negative distance is at most that distance. */
  lemma Between(pct: real, d: real)
    requires 0.0 <= pct <= 1.0 && d >= 0.0
    ensures 0.0 <= pct * d <= d
  {
  }

  /** `n` copies of the sample `c`. */
  function Constant(c: real, n: nat): (r: seq<Option<real>>)
    ensures |r| == n && forall i :: 0 <= i < n ==> r[i] == Some(c)
  {
    seq(n, _ => Some(c))
  }

  /** A constant series is a fixed point: after one sample the smoothed value
      equals the sample, and from the second on the level is `c` and the
      trend 0 forever, so the squared error stays 0. */
  lemma {:induction false} ConstantSeries(alpha: real, beta: real, c: real, n: nat)
    requires n >= 1
    ensures var r := Feed(alpha, beta, Start, Constant(c, n));
            && r.data == Some(c) && r.smoothedData == Some(c)
            && (n >= 2 ==> r.level == Some(c) && r.trend == Some(0.0))
            && SquaredError(r) == Some(0.0)
  {
    var cs := Constant(c, n);
    assert cs[..n - 1] == Constant(c, n - 1);
    assert Feed(alpha, beta, Start, cs) == Step(alpha, beta, Feed(alpha, beta, Start, cs[..n - 1]), Some(c));
    if n == 1 {
      assert cs[..0] == [];
      assert Feed(alpha, beta, Start, cs) == DesState(Some(c), Some(c), None, None);
    } else {
      ConstantSeries(alpha, beta, c, n - 1);
      if n > 2 {
        StandingStill(alpha, beta, c);
      }
    }
    assert Square(c - c) == 0.0;
  }

  /** Level `c` with trend 0 on sample `c` is a fixed point of both formulas. */
  lemma StandingStill(alpha: real, beta: real, c: real)
    ensures NextLevel(alpha, c, c, 0.0) == c
    ensures NextTrend(beta, c, c, 0.0) == 0.0
  {
  }

  /** Samples `a, a+k, a+2k, ...`, `n` of them. */
  function Ramp(a: real, k: real, n: nat): (r: seq<Option<real>>)
    ensures |r| == n && forall i :: 0 <= i < n ==> r[i] == Some(RampAt(a, k, i))
  {
    seq(n, i => Some(RampAt(a, k, i)))
  }

  /** The `i`-th sample of the ramp. */
  function RampAt(a: real, k: real, i: int): real {
    a + k * i as real
  }

  /** On a linear ramp the trend is exact from the second sample on, but the
      level (and so the smoothed value) lags one sample behind: `data` enters
      the level only on the step after it arrives, so the squared error stays
      at the square of the slope. */
  lemma {:induction false} RampLags(alpha: real, beta: real, a: real, k: real, n: nat)
    requires n >= 2
    ensures var r := Feed(alpha, beta, Start, Ramp(a, k, n));
            var last := RampAt(a, k, n - 1);
            && r.data == Some(last)
            && r.level == Some(last - k) && r.smoothedData == Some(last - k)
            && r.trend == Some(k)
            && SquaredError(r) == Some(Square(k))
  {
    var rs := Ramp(a, k, n);
    var last := RampAt(a, k, n - 1);
    var prevLast := RampAt(a, k, n - 2);
    assert rs[..n - 1] == Ramp(a, k, n - 1);
    assert Feed(alpha, beta, Start, rs) == Step(alpha, beta, Feed(alpha, beta, Start, rs[..n - 1]), Some(last));
    assert last == prevLast + k;
    if n == 2 {
      assert rs[..n - 1][..0] == [];
      assert prevLast == a;
      assert Feed(alpha, beta, Start, rs[..1]) == DesState(Some(a), Some(a), None, None);
    } else {
      RampLags(alpha, beta, a, k, n - 1);
      OnTheRamp(alpha, beta, prevLast, k);
    }
    assert Square(last - k - last) == Square(k);
  }

  /** One steady step on a ramp: level `x - k` and trend `k` on previous sample
      `x` give level `x` and trend `k`. */
  lemma OnTheRamp(alpha: real, beta: real, x: real, k: real)
    ensures NextLevel(alpha, x, x - k, k) == x
    ensures NextTrend(beta, x, x - k, k) == k
  {
  }
}
