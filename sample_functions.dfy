/** The test objectives of SampleFunctions.kt, as real polynomials, with
    their documented minima. Ackley's function is not part of this model;
    only its domains are. */
module SampleFunctions {
  import opened Wrappers
  import opened Reals
  import opened Objectives

  /** `x^4 - 2 x^3`. */
  function FunctionA(x: real): real {
    x * x * x * x - 2.0 * (x * x * x)
  }

  /** Booth's function `(x + 2y - 7)^2 + (2x + y - 5)^2`. */
  function Booth(x: real, y: real): real {
    (x + 2.0 * y - 7.0) * (x + 2.0 * y - 7.0) + (2.0 * x + y - 5.0) * (2.0 * x + y - 5.0)
  }

  /** The three-hump camel function `2x^2 - 1.05x^4 + x^6/6 + xy + y^2`. */
  function ThreeHumpCamel(x: real, y: real): real {
    2.0 * x * x - 1.05 * (x * x * x * x) + (x * x * x * x * x * x) / 6.0 + x * y + y * y
  }

  /** `functionA`: one dimension, the default domain. */
  const FUNCTION_A: OptimizableFunction :=
    MakeFunction(1, None, p requires |p| >= 1 => FunctionA(p[0]))

  /** The domains of `ackleysFunction`. */
  const ACKLEY_DOMAINS: seq<Range> := [Range(-5.0, 5.0), Range(-15.0, 15.0)]

  /** `boothsFunction`: two custom domains. */
  const BOOTHS_FUNCTION: OptimizableFunction :=
    MakeFunction(1, Some([Range(-2500000.0, 2500000.0), Range(-1500000.0, 1500000.0)]),
                 p requires |p| >= 2 => Booth(p[0], p[1]))

  /** `threeHumpCamelFunction`: two default dimensions. */
  const THREE_HUMP_CAMEL_FUNCTION: OptimizableFunction :=
    MakeFunction(2, None, p requires |p| >= 2 => ThreeHumpCamel(p[0], p[1]))

  /** The domain setups, each function defined on its whole domain. */
  lemma Setups()
    ensures FUNCTION_A.domains == [DEFAULT_DOMAIN] && FUNCTION_A.Valid()
    ensures BOOTHS_FUNCTION.domains == [Range(-2500000.0, 2500000.0), Range(-1500000.0, 1500000.0)]
    ensures BOOTHS_FUNCTION.Valid()
    ensures THREE_HUMP_CAMEL_FUNCTION.domains == [DEFAULT_DOMAIN, DEFAULT_DOMAIN]
    ensures THREE_HUMP_CAMEL_FUNCTION.Valid()
    ensures |ACKLEY_DOMAINS| == 2
  {
    assert FUNCTION_A.domains == [DEFAULT_DOMAIN];
    assert THREE_HUMP_CAMEL_FUNCTION.domains == [DEFAULT_DOMAIN, DEFAULT_DOMAIN];
  }

  /** The documented minimum of `functionA`: -1.6875 at 1.5. It rests on
      `x^4 - 2x^3 + 27/16 = (x - 3/2)^2 ((x + 1/2)^2 + 1/2)`. */
  lemma FunctionAMinimum(x: real)
    ensures FunctionA(x) >= -1.6875
    ensures FunctionA(1.5) == -1.6875
  {
    var u, v := x - 1.5, x + 0.5;
    SquareNonNeg(u);
    SquareNonNeg(v);
    var p, q := u * u, v * v + 0.5;
    MulNonNeg(p, q);
    assert FunctionA(x) + 1.6875 == p * q;
  }

  /** The documented minimum of Booth's function: 0 at (1, 3). */
  lemma BoothMinimum(x: real, y: real)
    ensures Booth(x, y) >= 0.0
    ensures Booth(1.0, 3.0) == 0.0
  {
    SquareNonNeg(x + 2.0 * y - 7.0);
    SquareNonNeg(2.0 * x + y - 5.0);
  }

  /** The three-hump camel function is 0 at the origin and never negative:
      it is `(y + x/2)^2 + x^2 ((x^2 - 3.15)^2 / 6 + 0.09625)`. */
  lemma ThreeHumpCamelMinimum(x: real, y: real)
    ensures ThreeHumpCamel(x, y) >= 0.0
    ensures ThreeHumpCamel(0.0, 0.0) == 0.0
  {
    var a, b := y + x / 2.0, x * x - 3.15;
    SquareNonNeg(a);
    SquareNonNeg(b);
    SquareNonNeg(x);
    var inner := b * b / 6.0 + 0.09625;
    MulNonNeg(x * x, inner);
    assert ThreeHumpCamel(x, y) == a * a + (x * x) * inner;
  }
}
