/** One particle of the swarm (Particle.kt): a position, a velocity, and the
    best position it has visited with that position's score. */
module Particles {
  import opened Vectors
  import opened Objectives
  import opened Reals

  /** `Double.MAX_VALUE`, the exact value `(2^53 - 1) * 2^971`. */
  const DOUBLE_MAX: real := 179769313486231570814527423731704356798070567525844996598917476803157260780028538760589558632766878171540458953514382464234321326889464182768467546703537516986049910576551282076245490090389328944075868508455133942304583236903222948165808559332123348274797826204144723168738177180919299881250404026184124858368.0

  /** The velocity `updateVelocityAndPosition` computes, built the way the
      method builds it: the old velocity scaled by the inertia, plus the pull
      towards the particle's own best, plus the pull towards the global best. */
  function NewVelocity(velocity: seq<real>, position: seq<real>, best: seq<real>, globalBest: seq<real>,
                       inertiaC: real, cognitiveC: real, socialC: real, r1: real, r2: real): (v: seq<real>)
    requires |velocity| == |position| == |best| == |globalBest|
    ensures |v| == |position|
  {
    var pBest := Scale(Scale(Minus(best, position), cognitiveC), r1);
    var gBest := Scale(Scale(Minus(globalBest, position), socialC), r2);
    Plus(Plus(Scale(velocity, inertiaC), pBest), gBest)
  }

  /** Component by component, the new velocity is the textbook update
      `w v + c1 r1 (best - x) + c2 r2 (globalBest - x)`. */
  lemma NewVelocityComponents(velocity: seq<real>, position: seq<real>, best: seq<real>, globalBest: seq<real>,
                              inertiaC: real, cognitiveC: real, socialC: real, r1: real, r2: real)
    requires |velocity| == |position| == |best| == |globalBest|
    ensures var v := NewVelocity(velocity, position, best, globalBest, inertiaC, cognitiveC, socialC, r1, r2);
            forall i :: 0 <= i < |v| ==>
              v[i] == inertiaC * velocity[i] + cognitiveC * r1 * (best[i] - position[i])
                                             + socialC * r2 * (globalBest[i] - position[i])
  {
    var v := NewVelocity(velocity, position, best, globalBest, inertiaC, cognitiveC, socialC, r1, r2);
    forall i | 0 <= i < |v|
      ensures v[i] == inertiaC * velocity[i] + cognitiveC * r1 * (best[i] - position[i])
                                             + socialC * r2 * (globalBest[i] - position[i])
    {
      var pBest := Scale(Scale(Minus(best, position), cognitiveC), r1);
      var gBest := Scale(Scale(Minus(globalBest, position), socialC), r2);
      assert pBest[i] == (best[i] - position[i]) * cognitiveC * r1;
      assert gBest[i] == (globalBest[i] - position[i]) * socialC * r2;
    }
  }

  /** With all three constants 0 (the constructor's defaults) a move leaves
      the velocity zero and the position where it was. */
  lemma StandingStill(velocity: seq<real>, position: seq<real>, best: seq<real>, globalBest: seq<real>,
                      r1: real, r2: real)
    requires |velocity| == |position| == |best| == |globalBest|
    ensures NewVelocity(velocity, position, best, globalBest, 0.0, 0.0, 0.0, r1, r2) == Zeros(|position|)
    ensures Plus(position, Zeros(|position|)) == position
  {
    NewVelocityComponents(velocity, position, best, globalBest, 0.0, 0.0, 0.0, r1, r2);
    assert Plus(position, Zeros(|position|)) == position;
  }

  class Particle {
    const objective: OptimizableFunction
    const inertiaC: real
    const cognitiveC: real
    const socialC: real
    const position: Vector
    const velocity: Vector
    const bestPosition: Vector
    /** The score of `bestPosition`; lower is better. */
    var bestEval: real

    /** The objects whose state the particle owns. */
    ghost function Repr(): set<object> {
      {this, position.data, velocity.data, bestPosition.data}
    }

    /** Three distinct arrays, each with one coordinate per domain. */
    ghost predicate Shaped() {
      && objective.Valid()
      && position.data.Length == velocity.data.Length == bestPosition.data.Length == |objective.domains|
      && position.data != velocity.data && position.data != bestPosition.data
      && velocity.data != bestPosition.data
    }

    /** The function's value at a point of the right size. */
    function Score(x: seq<real>): real
      requires objective.Valid() && |x| == |objective.domains|
    {
      objective.Eval(x).value
    }

    /** `bestEval` is the score of `bestPosition`, or `Double.MAX_VALUE` if
        that score is no lower. */
    ghost predicate BestConsistent()
      requires Shaped()
      reads this, bestPosition.data
    {
      bestEval == Min(DOUBLE_MAX, Score(bestPosition.data[..]))
    }

    ghost predicate Valid()
      reads this, bestPosition.data
    {
      Shaped() && BestConsistent()
    }

    /** A particle at the random point given by `draws`, standing still,
        whose best is its start. */
    constructor (objective: OptimizableFunction, inertiaC: real, cognitiveC: real, socialC: real,
                 draws: seq<real>)
      requires objective.Valid() && |draws| == |objective.domains|
      ensures Valid()
      ensures this.objective == objective && this.inertiaC == inertiaC
      ensures this.cognitiveC == cognitiveC && this.socialC == socialC
      ensures fresh(position) && fresh(velocity) && fresh(bestPosition)
      ensures fresh(position.data) && fresh(velocity.data) && fresh(bestPosition.data)
      ensures position.data[..] == RandomPoint(objective.domains, draws)
      ensures velocity.data[..] == Zeros(|objective.domains|)
      ensures bestPosition.data[..] == position.data[..]
      ensures bestEval == Min(DOUBLE_MAX, Score(position.data[..]))
    {
      this.objective := objective;
      this.inertiaC, this.cognitiveC, this.socialC := inertiaC, cognitiveC, socialC;
      var start := NewRandomVector(objective, draws);
      var still := NewZeroVector(objective);
      var best := start.Clone();
      position, velocity, bestPosition := start, still, best;
      bestEval := DOUBLE_MAX;
      new;
      UpdatePersonalBest();
    }

    /** `updatePersonalBest()`: the current position becomes the best only
        when its score is strictly lower. */
    method UpdatePersonalBest()
      requires Shaped()
      modifies this, bestPosition.data
      ensures var current := Score(position.data[..]);
              if current < old(bestEval) then
                bestEval == current && bestPosition.data[..] == position.data[..]
              else
                bestEval == old(bestEval) && bestPosition.data[..] == old(bestPosition.data[..])
      ensures bestEval <= old(bestEval) && bestEval <= Score(position.data[..])
      ensures old(BestConsistent()) ==> BestConsistent()
      ensures old(bestPosition.data[..]) == position.data[..] && old(bestEval) == DOUBLE_MAX ==> BestConsistent()
    {
      var current := position.GetData();
      var currentEval := objective.Eval(current[..]).value;
      if currentEval < bestEval {
        bestPosition.SetFrom(position);
        bestEval := currentEval;
      }
    }

    /** `updateVelocityAndPosition(globalBest)`, with the two
        `Random.nextDouble()` results given as `r1` and `r2`. Both best
        positions are cloned before use, so neither changes. */
    method UpdateVelocityAndPosition(globalBest: Particle, r1: real, r2: real)
      requires Shaped() && globalBest.bestPosition.data.Length == position.data.Length
      requires globalBest.bestPosition.data != position.data
      requires globalBest.bestPosition.data != velocity.data
      modifies position.data, velocity.data
      ensures velocity.data[..] == NewVelocity(old(velocity.data[..]), old(position.data[..]),
                                               old(bestPosition.data[..]), old(globalBest.bestPosition.data[..]),
                                               inertiaC, cognitiveC, socialC, r1, r2)
      ensures position.data[..] == Plus(old(position.data[..]), velocity.data[..])
      ensures bestPosition.data[..] == old(bestPosition.data[..])
      ensures globalBest.bestPosition.data[..] == old(globalBest.bestPosition.data[..])
    {
      ghost var g0 := globalBest.bestPosition.data[..];

      // natural friction
      velocity.TimesAssign(inertiaC);

      // steer towards the particle's own best
      var pBest := Pull(bestPosition, cognitiveC, r1);
      velocity.PlusAssign(pBest);
      assert pBest.data[..velocity.data.Length] == pBest.data[..];

      // steer towards the global best
      assert globalBest.bestPosition.data[..] == g0;
      var gBest := Pull(globalBest.bestPosition, socialC, r2);
      velocity.PlusAssign(gBest);
      assert gBest.data[..velocity.data.Length] == gBest.data[..];

      // time to move
      position.PlusAssign(velocity);
      assert velocity.data[..position.data.Length] == velocity.data[..];
    }

    /** One `clone().let { ... }` block: a copy of `target`, minus the
        position, times `c`, times the draw `r`. */
    method Pull(target: Vector, c: real, r: real) returns (pull: Vector)
      requires target.data.Length == position.data.Length
      ensures fresh(pull) && fresh(pull.data)
      ensures pull.data[..] == Scale(Scale(Minus(target.data[..], position.data[..]), c), r)
    {
      pull := target.Clone();
      pull.MinusAssign(position);
      assert position.data[..pull.data.Length] == position.data[..];
      pull.TimesAssign(c);
      pull.TimesAssign(r);
    }
  }
}
