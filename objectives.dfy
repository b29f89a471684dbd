/** The function a particle swarm minimises (OptimizableFunction.kt): a
    search domain per dimension and the function itself. */
module Objectives {
  import opened Wrappers
  import opened Vectors
  import opened Reals

  /** A closed range `start..endInclusive` of one dimension. */
  datatype Range = Range(start: real, endInclusive: real)

  /** The domain of every dimension when no custom domains are given. */
  const DEFAULT_DOMAIN := Range(-100.0, 100.0)

  /** The domains and the function. The function may demand as many
      coordinates as there are domains, and no more. */
  datatype OptimizableFunction = OptimizableFunction(domains: seq<Range>, f: seq<real> --> real)
  {
    /** `f` is defined on every point with one coordinate per domain. */
    ghost predicate Valid() {
      forall data: seq<real> {:trigger f.requires(data)} :: |data| == |domains| ==> f.requires(data)
    }

    /** `eval(data)`: the `require` on the size, then `f` unchanged; a point
        of the wrong size is the failed `require` (`None`). */
    function Eval(data: seq<real>): (r: Option<real>)
      requires Valid()
      ensures r.Some? <==> |data| == |domains|
      ensures r.Some? ==> r.value == f(data)
    {
      if |data| == |domains| then Some(f(data)) else None
    }
  }

  /** The constructor: the custom domains when given, otherwise
      `numDimensions` copies of [-100, 100]. */
  function MakeFunction(numDimensions: nat, customDomains: Option<seq<Range>>,
                        f: seq<real> --> real): (r: OptimizableFunction)
    ensures r.f == f
    ensures customDomains.Some? ==> r.domains == customDomains.value
    ensures customDomains.None? ==>
              |r.domains| == numDimensions
              && forall i :: 0 <= i < numDimensions ==> r.domains[i] == DEFAULT_DOMAIN
  {
    match customDomains
    case Some(domains) => OptimizableFunction(domains, f)
    case None => OptimizableFunction(seq(numDimensions, _ => DEFAULT_DOMAIN), f)
  }

  /** One coordinate of `newRandomVector` for the draw `r`: the draw scaled
      to the width of the range, minus the start of the range. */
  function DrawIn(rg: Range, r: real): real {
    r * (rg.endInclusive - rg.start) - rg.start
  }

  /** The point `newRandomVector` builds from one draw per domain. */
  function RandomPoint(domains: seq<Range>, draws: seq<real>): (p: seq<real>)
    requires |draws| == |domains|
    ensures |p| == |domains|
    ensures forall i :: 0 <= i < |p| ==> p[i] == DrawIn(domains[i], draws[i])
  {
    seq(|domains|, i requires 0 <= i < |domains| => DrawIn(domains[i], draws[i]))
  }

  /** `newZeroVector()`: a fresh vector of zeros, one per domain. */
  method NewZeroVector(fn: OptimizableFunction) returns (v: Vector)
    ensures fresh(v) && fresh(v.data)
    ensures v.data[..] == Zeros(|fn.domains|)
  {
    v := new Vector(|fn.domains|);
  }

  /** `newRandomVector()`, with the `Random.nextDouble()` results given as
      `draws`, one per domain. */
  method NewRandomVector(fn: OptimizableFunction, draws: seq<real>) returns (v: Vector)
    requires |draws| == |fn.domains|
    ensures fresh(v) && fresh(v.data)
    ensures v.data[..] == RandomPoint(fn.domains, draws)
  {
    v := NewZeroVector(fn);
    v.Set(RandomPoint(fn.domains, draws));
  }

  /** The coordinate for draw `r` lies in [start, endInclusive). */
  predicate Lands(rg: Range, r: real) {
    rg.start <= DrawIn(rg, r) < rg.endInclusive
  }

  /** A draw in [0, 1) gives a coordinate in [-start, end - 2 * start): the
      range shifted by twice its start. */
  lemma DrawBounds(rg: Range, r: real)
    requires rg.start < rg.endInclusive && 0.0 <= r < 1.0
    ensures -rg.start <= DrawIn(rg, r) < rg.endInclusive - 2.0 * rg.start
  {
    var s, e := rg.start, rg.endInclusive;
    var p := r * (e - s);
    Fraction(r, e - s, p);
  }

  /** Since the start is subtracted rather than added, every draw in [0, 1)
      lands inside a (non-empty) range exactly when the range starts at 0. */
  lemma DrawsLandIffStartIsZero(rg: Range)
    requires rg.start < rg.endInclusive
    ensures (forall r :: 0.0 <= r < 1.0 ==> Lands(rg, r)) <==> rg.start == 0.0
  {
    if rg.start == 0.0 {
      forall r | 0.0 <= r < 1.0
        ensures Lands(rg, r)
      {
        DrawBounds(rg, r);
      }
    } else {
      var r := MissingDraw(rg);
    }
  }

  /** A draw in [0, 1) whose coordinate misses a range that does not start
      at 0. */
  lemma MissingDraw(rg: Range) returns (r: real)
    requires rg.start < rg.endInclusive && rg.start != 0.0
    ensures 0.0 <= r < 1.0 && !Lands(rg, r)
  {
    var s, e := rg.start, rg.endInclusive;
    if s > 0.0 || -s >= e {
      // the draw 0 gives -start, outside the range
      r := 0.0;
      assert DrawIn(rg, r) == -s;
    } else {
      // start < 0 < start + end: the draw (end + start) / (end - start) gives end
      r := Quotient(e + s, e - s);
      assert DrawIn(rg, r) == e;
    }
  }

  /** The quotient of `0 < a < b` lies in [0, 1). */
  lemma Quotient(a: real, b: real) returns (q: real)
    requires 0.0 < a < b
    ensures 0.0 <= q < 1.0 && q * b == a
  {
    q := a / b;
    assert q * b == a;
    if q < 0.0 {
      MulPos(-q, b);
      assert false;
    }
    if q >= 1.0 {
      MulNonNeg(q - 1.0, b);
      assert false;
    }
  }
}
