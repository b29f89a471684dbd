/** The particle swarm optimiser (PSOSwarm.kt): a global best, and a run of
    epochs in which every particle re-scores its position, the global best
    catches up with the best personal best, and every particle moves, until
    the swarm has nearly stopped moving or the epochs run out.

    The coroutine fan-outs are modelled as sequential loops over the
    particles (each particle touches only its own state), and the random
    draws are parameters: `initialDraws[k]` places particle `k`, and
    `moveDraws(epoch, k)` gives its two draws for that epoch's move. */
module Swarms {
  import opened Wrappers
  import opened Reals
  import opened Vectors
  import opened Objectives
  import opened Particles

  const DEFAULT_INERTIA_C: real := 0.729844
  const DEFAULT_COGNITIVE_C: real := 1.496180
  const DEFAULT_SOCIAL_C: real := 1.496180
  const DEFAULT_SMALLEST_MOVE_PCT: real := 0.00000000000000000001

  /** The squared width of each domain, summed: never negative, and zero
      when every domain is a single point. */
  function TotalSpaceSq(domains: seq<Range>): (r: real)
    ensures r >= 0.0
    ensures (forall i :: 0 <= i < |domains| ==> domains[i].start == domains[i].endInclusive) ==> r == 0.0
  {
    if domains == [] then 0.0
    else
      var last := domains[|domains| - 1];
      var width := last.endInclusive - last.start;
      SquareNonNeg(width);
      var before := TotalSpaceSq(domains[..|domains| - 1]);
      assert forall i :: 0 <= i < |domains| - 1 ==> domains[..|domains| - 1][i] == domains[i];
      before + width * width
  }

  /** `sumOf { it.velocity.magnitudeSq() }`: the squared speeds of the
      particles, summed. */
  function TotalVelocitySq(ps: seq<Particle>): (r: real)
    reads set k | 0 <= k < |ps| :: ps[k].velocity.data
    ensures r >= 0.0
  {
    if ps == [] then 0.0
    else TotalVelocitySq(ps[..|ps| - 1]) + ps[|ps| - 1].velocity.MagnitudeSq()
  }

  /** Every element is at most its predecessor. */
  predicate StepsDown(s: seq<real>) {
    |s| <= 1 || (s[|s| - 1] <= s[|s| - 2] && StepsDown(s[..|s| - 1]))
  }

  /** Appending an element no greater than the last keeps stepping down. */
  lemma StepsDownExtended(s: seq<real>, x: real)
    requires StepsDown(s) && s != [] && x <= s[|s| - 1]
    ensures StepsDown(s + [x])
  {
    assert (s + [x])[..|s|] == s;
  }

  /** A sequence that steps down is non-increasing: every element is at
      most every earlier one. */
  lemma {:induction false} StepsDownEverywhere(s: seq<real>)
    requires StepsDown(s)
    ensures forall i, j :: 0 <= i <= j < |s| ==> s[j] <= s[i]
  {
    if |s| > 1 {
      var t := s[..|s| - 1];
      StepsDownEverywhere(t);
      forall i, j | 0 <= i <= j < |s|
        ensures s[j] <= s[i]
      {
        if j == |s| - 1 && i < j {
          assert t[j - 1] <= t[i];
        } else if j < |s| - 1 {
          assert t[j] <= t[i];
        }
      }
    }
  }

  /** The early exit: the travel, as a fraction of the space, is below the
      threshold. With an empty space the fraction is NaN or +Infinity, and
      the comparison fails. */
  predicate StopsEarly(totalSpaceSq: real, travel: real, smallestMovePct: real): (b: bool)
    ensures totalSpaceSq == 0.0 ==> !b
    ensures totalSpaceSq > 0.0 ==> (b <==> travel < smallestMovePct * totalSpaceSq)
  {
    if totalSpaceSq > 0.0 then
      ShareBelow(travel, totalSpaceSq, smallestMovePct);
      Share(travel, totalSpaceSq) < smallestMovePct
    else
      totalSpaceSq != 0.0 && Share(travel, totalSpaceSq) < smallestMovePct
  }

  /** For a positive whole, the share is below `pct` exactly when the part
      is below `pct` of the whole. */
  lemma ShareBelow(part: real, whole: real, pct: real)
    requires whole > 0.0
    ensures Share(part, whole) < pct <==> part < pct * whole
  {
    var q := Share(part, whole);
    assert q * whole == part;
    if q < pct {
      MulPos(pct - q, whole);
    } else {
      MulNonNeg(q - pct, whole);
    }
  }

  /** No travel in `travels` stops the run early. */
  predicate KeptMoving(totalSpaceSq: real, travels: seq<real>, smallestMovePct: real) {
    travels == []
    || (&& !StopsEarly(totalSpaceSq, travels[|travels| - 1], smallestMovePct)
        && KeptMoving(totalSpaceSq, travels[..|travels| - 1], smallestMovePct))
  }

  lemma KeptMovingExtended(totalSpaceSq: real, travels: seq<real>, travel: real, smallestMovePct: real)
    requires KeptMoving(totalSpaceSq, travels, smallestMovePct)
    requires !StopsEarly(totalSpaceSq, travel, smallestMovePct)
    ensures KeptMoving(totalSpaceSq, travels + [travel], smallestMovePct)
  {
    assert (travels + [travel])[..|travels|] == travels;
  }

  lemma {:induction false} KeptMovingEverywhere(totalSpaceSq: real, travels: seq<real>, smallestMovePct: real)
    requires KeptMoving(totalSpaceSq, travels, smallestMovePct)
    ensures forall e :: 0 <= e < |travels| ==> !StopsEarly(totalSpaceSq, travels[e], smallestMovePct)
  {
    if travels != [] {
      var init := travels[..|travels| - 1];
      KeptMovingEverywhere(totalSpaceSq, init, smallestMovePct);
      assert forall e :: 0 <= e < |init| ==> init[e] == travels[e];
    }
  }

  /** `part / whole`. */
  function Share(part: real, whole: real): real
    requires whole != 0.0
  {
    part / whole
  }

  /** The particles' own records, and their arrays by role. */
  ghost function Records(ps: seq<Particle>): set<object> {
    set k | 0 <= k < |ps| :: ps[k]
  }

  ghost function Bests(ps: seq<Particle>): set<object> {
    set k | 0 <= k < |ps| :: ps[k].bestPosition.data
  }

  ghost function Positions(ps: seq<Particle>): set<object> {
    set k | 0 <= k < |ps| :: ps[k].position.data
  }

  ghost function Velocities(ps: seq<Particle>): set<object> {
    set k | 0 <= k < |ps| :: ps[k].velocity.data
  }

  /** Two particles share no state. */
  ghost predicate Apart(p: Particle, q: Particle) {
    && p != q
    && p.position.data != q.position.data && p.position.data != q.velocity.data
    && p.position.data != q.bestPosition.data
    && p.velocity.data != q.position.data && p.velocity.data != q.velocity.data
    && p.velocity.data != q.bestPosition.data
    && p.bestPosition.data != q.position.data && p.bestPosition.data != q.velocity.data
    && p.bestPosition.data != q.bestPosition.data
  }

  /** `p` has updated its personal best from the score `e0` and the best
      position `b0`: the best score is the lower of `e0` and the position's
      score, and the position became the best exactly when it scored
      strictly lower. */
  ghost predicate Evaluated(p: Particle, e0: real, b0: seq<real>)
    reads p, p.position.data, p.bestPosition.data
  {
    && p.Shaped()
    && var current := p.Score(p.position.data[..]);
       && p.bestEval == Min(e0, current)
       && p.bestPosition.data[..] == if current < e0 then p.position.data[..] else b0
  }

  /** An updated best score is at most the old one and the position's. */
  lemma EvaluatedBounds(p: Particle, e0: real, b0: seq<real>)
    requires Evaluated(p, e0, b0)
    ensures p.bestEval <= e0 && p.bestEval <= p.Score(p.position.data[..])
  {
  }

  class PSOSwarm {
    const objective: OptimizableFunction
    const numOfParticles: nat
    const epochs: nat
    const inertiaC: real
    const cognitiveC: real
    const socialC: real
    const smallestMovePct: real
    /** Position and score of the best point seen (its velocity stays 0). */
    const globalBest: Particle

    ghost predicate Valid()
      reads globalBest, globalBest.bestPosition.data
    {
      objective.Valid() && globalBest.Valid() && globalBest.objective == objective
    }

    /** A particle of a run: well shaped, built with this swarm's function
        and constants. */
    ghost predicate Member(p: Particle) {
      && p.Shaped() && p.objective == objective
      && p.inertiaC == inertiaC && p.cognitiveC == cognitiveC && p.socialC == socialC
    }

    /** The particles of a run, each owning its state alone. */
    ghost predicate Separate(ps: seq<Particle>) {
      && (forall k :: 0 <= k < |ps| ==> Member(ps[k]))
      && (forall k :: 0 <= k < |ps| ==> Apart(ps[k], globalBest))
      && (forall i, j :: 0 <= i < |ps| && 0 <= j < |ps| && i != j ==> Apart(ps[i], ps[j]))
    }

    /** `p` stands still at the random point of `draws`. */
    ghost predicate Placed(p: Particle, draws: seq<real>)
      reads p.position.data, p.velocity.data
    {
      && |draws| == |objective.domains|
      && p.position.data[..] == RandomPoint(objective.domains, draws)
      && p.velocity.data[..] == Zeros(|objective.domains|)
    }

    /** A particle apart from all others joins a separate sequence. */
    lemma Extend(ps: seq<Particle>, p: Particle)
      requires Separate(ps) && Member(p) && Apart(p, globalBest)
      requires forall k :: 0 <= k < |ps| ==> Apart(ps[k], p) && Apart(p, ps[k])
      ensures Separate(ps + [p])
    {
    }

    /** Every personal best score is consistent with its position. */
    ghost predicate AllValid(ps: seq<Particle>)
      reads Records(ps), Bests(ps)
    {
      forall k :: 0 <= k < |ps| ==> ps[k].Valid()
    }

    /** `p` has moved from velocity `v0` and position `x0` with the draws
        `r`: its new velocity is the inertia plus the two pulls, and its new
        position the old one plus the new velocity. */
    ghost predicate Moved(p: Particle, v0: seq<real>, x0: seq<real>, r: (real, real))
      reads p.velocity.data, p.position.data, p.bestPosition.data, globalBest.bestPosition.data
    {
      && |v0| == |x0| == p.bestPosition.data.Length == globalBest.bestPosition.data.Length
      && p.velocity.data[..]
         == NewVelocity(v0, x0, p.bestPosition.data[..], globalBest.bestPosition.data[..],
                        inertiaC, cognitiveC, socialC, r.0, r.1)
      && p.position.data[..] == Plus(x0, p.velocity.data[..])
    }

    /** The constructor; an absent size takes its default, 30 particles and
        1000 epochs per dimension. The global best is a standing particle
        placed by `draws`, as `Particle(function)` places it: its best is
        its start and its score that of the start (or `Double.MAX_VALUE` if
        that is no lower). */
    constructor (objective: OptimizableFunction, numOfParticles: Option<nat>, epochs: Option<nat>,
                 inertiaC: real, cognitiveC: real, socialC: real, smallestMovePct: real,
                 draws: seq<real>)
      requires objective.Valid() && |draws| == |objective.domains|
      ensures Valid() && this.objective == objective
      ensures this.numOfParticles == if numOfParticles.Some? then numOfParticles.value else 30 * |objective.domains|
      ensures this.epochs == if epochs.Some? then epochs.value else 1000 * |objective.domains|
      ensures this.inertiaC == inertiaC && this.cognitiveC == cognitiveC && this.socialC == socialC
      ensures this.smallestMovePct == smallestMovePct
      ensures globalBest.inertiaC == 0.0 && globalBest.cognitiveC == 0.0 && globalBest.socialC == 0.0
      ensures fresh(globalBest) && Placed(globalBest, draws)
      ensures globalBest.bestPosition.data[..] == globalBest.position.data[..]
      ensures globalBest.bestEval == Min(DOUBLE_MAX, globalBest.Score(RandomPoint(objective.domains, draws)))
    {
      this.objective := objective;
      this.numOfParticles := if numOfParticles.Some? then numOfParticles.value else 30 * |objective.domains|;
      this.epochs := if epochs.Some? then epochs.value else 1000 * |objective.domains|;
      this.inertiaC, this.cognitiveC, this.socialC := inertiaC, cognitiveC, socialC;
      this.smallestMovePct := smallestMovePct;
      globalBest := new Particle(objective, 0.0, 0.0, 0.0, draws);
    }

    /** The constructor with every parameter at its default; the global
        best starts as in the main constructor. */
    constructor Defaults(objective: OptimizableFunction, draws: seq<real>)
      requires objective.Valid() && |draws| == |objective.domains|
      ensures Valid() && this.objective == objective
      ensures numOfParticles == 30 * |objective.domains| && epochs == 1000 * |objective.domains|
      ensures inertiaC == DEFAULT_INERTIA_C && cognitiveC == DEFAULT_COGNITIVE_C && socialC == DEFAULT_SOCIAL_C
      ensures smallestMovePct == DEFAULT_SMALLEST_MOVE_PCT
      ensures globalBest.inertiaC == 0.0 && globalBest.cognitiveC == 0.0 && globalBest.socialC == 0.0
      ensures fresh(globalBest) && Placed(globalBest, draws)
      ensures globalBest.bestPosition.data[..] == globalBest.position.data[..]
      ensures globalBest.bestEval == Min(DOUBLE_MAX, globalBest.Score(RandomPoint(objective.domains, draws)))
    {
      this.objective := objective;
      numOfParticles, epochs := 30 * |objective.domains|, 1000 * |objective.domains|;
      inertiaC, cognitiveC, socialC := DEFAULT_INERTIA_C, DEFAULT_COGNITIVE_C, DEFAULT_SOCIAL_C;
      smallestMovePct := DEFAULT_SMALLEST_MOVE_PCT;
      globalBest := new Particle(objective, 0.0, 0.0, 0.0, draws);
    }

    /** `getBest()`: a copy of the global best position, one coordinate per
        domain. */
    method GetBest() returns (best: array<real>)
      requires Valid()
      ensures fresh(best)
      ensures best[..] == globalBest.bestPosition.data[..]
      ensures best.Length == |objective.domains|
    {
      best := globalBest.bestPosition.GetData();
    }

    /** The particles of a run, each at the random point of its draws. */
    method CreateParticles(initialDraws: seq<seq<real>>) returns (ps: seq<Particle>)
      requires Valid()
      requires |initialDraws| == numOfParticles
      requires forall k :: 0 <= k < |initialDraws| ==> |initialDraws[k]| == |objective.domains|
      ensures |ps| == numOfParticles && Separate(ps) && AllValid(ps)
      ensures forall k :: 0 <= k < |ps| ==>
                && fresh(ps[k]) && fresh(ps[k].position.data)
                && fresh(ps[k].velocity.data) && fresh(ps[k].bestPosition.data)
      ensures forall k :: 0 <= k < |ps| ==> Placed(ps[k], initialDraws[k])
      ensures forall k :: 0 <= k < |ps| ==> ps[k].bestPosition.data[..] == ps[k].position.data[..]
    {
      ps := [];
      for i := 0 to numOfParticles
        invariant |ps| == i && Separate(ps) && AllValid(ps)
        invariant forall k :: 0 <= k < i ==>
                    && fresh(ps[k]) && fresh(ps[k].position.data)
                    && fresh(ps[k].velocity.data) && fresh(ps[k].bestPosition.data)
        invariant forall k :: 0 <= k < i ==> Placed(ps[k], initialDraws[k])
        invariant forall k :: 0 <= k < i ==> ps[k].bestPosition.data[..] == ps[k].position.data[..]
      {
        var p := new Particle(objective, inertiaC, cognitiveC, socialC, initialDraws[i]);
        assert Apart(p, globalBest);
        assert forall k :: 0 <= k < |ps| ==> Apart(ps[k], p) && Apart(p, ps[k]);
        Extend(ps, p);
        ps := ps + [p];
      }
    }

    /** The first phase of an epoch: every particle updates its personal best. */
    method EvaluateAll(ps: seq<Particle>)
      requires Valid() && Separate(ps) && AllValid(ps)
      modifies Records(ps), Bests(ps)
      ensures Valid() && AllValid(ps)
      ensures globalBest.bestEval == old(globalBest.bestEval)
      ensures forall k :: 0 <= k < |ps| ==>
                && ps[k].bestEval <= old(ps[k].bestEval)
                && ps[k].bestEval <= ps[k].Score(ps[k].position.data[..])
      ensures forall k :: 0 <= k < |ps| ==>
                Evaluated(ps[k], old(ps[k].bestEval), old(ps[k].bestPosition.data[..]))
    {
      for i := 0 to |ps|
        invariant AllValid(ps)
        invariant forall k :: 0 <= k < i ==>
                    Evaluated(ps[k], old(ps[k].bestEval), old(ps[k].bestPosition.data[..]))
        invariant forall k :: i <= k < |ps| ==>
                    && ps[k].bestEval == old(ps[k].bestEval)
                    && ps[k].bestPosition.data[..] == old(ps[k].bestPosition.data[..])
      {
        ghost var e0, b0 := ps[i].bestEval, ps[i].bestPosition.data[..];
        ps[i].UpdatePersonalBest();
        assert Evaluated(ps[i], e0, b0);
      }
      forall k | 0 <= k < |ps|
        ensures ps[k].bestEval <= old(ps[k].bestEval)
        ensures ps[k].bestEval <= ps[k].Score(ps[k].position.data[..])
      {
        EvaluatedBounds(ps[k], old(ps[k].bestEval), old(ps[k].bestPosition.data[..]));
      }
    }

    /** The second phase: the global best moves to any personal best that
        beats it, and re-scores there. Afterwards its score is the least of
        its old score and all personal bests, and its best position is
        either untouched or the best position of a particle with that score. */
    method ScanGlobalBest(ps: seq<Particle>)
      requires Valid() && Separate(ps) && AllValid(ps)
      modifies globalBest, globalBest.position.data, globalBest.bestPosition.data
      ensures Valid() && AllValid(ps)
      ensures globalBest.bestEval <= old(globalBest.bestEval)
      ensures forall k :: 0 <= k < |ps| ==> globalBest.bestEval <= ps[k].bestEval
      ensures globalBest.bestEval == old(globalBest.bestEval)
              || exists k :: 0 <= k < |ps| && globalBest.bestEval == ps[k].bestEval
      ensures globalBest.bestEval == old(globalBest.bestEval) ==>
                globalBest.bestPosition.data[..] == old(globalBest.bestPosition.data[..])
      ensures globalBest.bestEval < old(globalBest.bestEval) ==>
                exists k :: 0 <= k < |ps| && globalBest.bestEval == ps[k].bestEval
                  && globalBest.bestPosition.data[..] == ps[k].bestPosition.data[..]
    {
      for i := 0 to |ps|
        invariant Valid() && AllValid(ps)
        invariant globalBest.bestEval <= old(globalBest.bestEval)
        invariant forall k :: 0 <= k < i ==> globalBest.bestEval <= ps[k].bestEval
        invariant globalBest.bestEval == old(globalBest.bestEval)
                  || exists k :: 0 <= k < i && globalBest.bestEval == ps[k].bestEval
        invariant globalBest.bestEval == old(globalBest.bestEval) ==>
                    globalBest.bestPosition.data[..] == old(globalBest.bestPosition.data[..])
        invariant globalBest.bestEval < old(globalBest.bestEval) ==>
                    exists k :: 0 <= k < i && globalBest.bestEval == ps[k].bestEval
                      && globalBest.bestPosition.data[..] == ps[k].bestPosition.data[..]
      {
        var p := ps[i];
        if p.bestEval < globalBest.bestEval {
          // below Double.MAX_VALUE, a personal best is the score of its position
          assert p.bestEval == p.Score(p.bestPosition.data[..]);
          globalBest.position.SetFrom(p.bestPosition);
          globalBest.UpdatePersonalBest();
          assert globalBest.bestEval == ps[i].bestEval;
        }
      }
    }

    /** The third phase: every particle moves, pulled towards its own best
        and the global best. */
    method MoveAll(ps: seq<Particle>, epoch: nat, moveDraws: (nat, nat) -> (real, real))
      requires Valid() && Separate(ps) && AllValid(ps)
      modifies Positions(ps), Velocities(ps)
      ensures Valid() && AllValid(ps)
      ensures globalBest.bestEval == old(globalBest.bestEval)
      ensures forall k :: 0 <= k < |ps| ==> ps[k].bestEval == old(ps[k].bestEval)
      ensures forall k :: 0 <= k < |ps| ==>
                Moved(ps[k], old(ps[k].velocity.data[..]), old(ps[k].position.data[..]), moveDraws(epoch, k))
    {
      for i := 0 to |ps|
        invariant AllValid(ps)
        invariant forall k :: 0 <= k < i ==>
                    Moved(ps[k], old(ps[k].velocity.data[..]), old(ps[k].position.data[..]), moveDraws(epoch, k))
        invariant forall k :: i <= k < |ps| ==>
                    && ps[k].velocity.data[..] == old(ps[k].velocity.data[..])
                    && ps[k].position.data[..] == old(ps[k].position.data[..])
      {
        var (r1, r2) := moveDraws(epoch, i);
        ps[i].UpdateVelocityAndPosition(globalBest, r1, r2);
      }
    }

    /** The three phases of one epoch of `run()`. Afterwards no best is
        worse than before and the global best is no worse than any personal
        best; the move itself is stated by `MoveAll`. */
    method Epoch(ps: seq<Particle>, epoch: nat, moveDraws: (nat, nat) -> (real, real))
      requires Valid() && Separate(ps) && AllValid(ps)
      modifies globalBest, globalBest.position.data, globalBest.bestPosition.data
      modifies Records(ps), Bests(ps), Positions(ps), Velocities(ps)
      ensures Valid() && AllValid(ps)
      ensures globalBest.bestEval <= old(globalBest.bestEval)
      ensures forall k :: 0 <= k < |ps| ==> globalBest.bestEval <= ps[k].bestEval
      ensures forall k :: 0 <= k < |ps| ==> ps[k].bestEval <= old(ps[k].bestEval)
    {
      // bring everything up to date
      EvaluateAll(ps);
      // the personal bests as evaluated; moving does not change them
      ghost var evaluated := seq(|ps|, k requires 0 <= k < |ps| reads ps => ps[k].bestEval);
      // make sure the global best is correct
      ScanGlobalBest(ps);
      assert forall k :: 0 <= k < |ps| ==> globalBest.bestEval <= evaluated[k];
      // now everyone can move
      MoveAll(ps, epoch, moveDraws);
    }

    /** The epoch loop of `run()`, over the particles `ps`. Returns the
        number of epochs run and, as ghosts, the travel of every epoch and
        the global best score before the first epoch and after each one. */
    method Epochs(ps: seq<Particle>, moveDraws: (nat, nat) -> (real, real))
      returns (epochsRun: nat, ghost travels: seq<real>, ghost scores: seq<real>)
      requires Valid() && Separate(ps) && AllValid(ps)
      modifies globalBest, globalBest.position.data, globalBest.bestPosition.data
      modifies Records(ps), Bests(ps), Positions(ps), Velocities(ps)
      ensures Valid() && AllValid(ps)
      ensures epochsRun <= epochs
      ensures |scores| == epochsRun + 1
      ensures scores[0] == old(globalBest.bestEval) && scores[epochsRun] == globalBest.bestEval
      ensures forall i, j :: 0 <= i <= j <= epochsRun ==> scores[j] <= scores[i]
      ensures epochsRun > 0 ==> forall k :: 0 <= k < |ps| ==> globalBest.bestEval <= ps[k].bestEval
      ensures |travels| == epochsRun
      ensures forall e :: 0 <= e < epochsRun - 1 ==>
                !StopsEarly(TotalSpaceSq(objective.domains), travels[e], smallestMovePct)
      ensures epochsRun < epochs ==>
                epochsRun > 0 && StopsEarly(TotalSpaceSq(objective.domains), travels[epochsRun - 1], smallestMovePct)
      ensures epochsRun < epochs ==>
                StopsEarly(TotalSpaceSq(objective.domains), TotalVelocitySq(ps), smallestMovePct)
    {
      var totalSpaceSq := TotalSpaceSq(objective.domains);
      epochsRun, travels, scores := 0, [], [globalBest.bestEval];
      for epoch := 0 to epochs
        invariant epochsRun == epoch
        invariant Valid() && AllValid(ps)
        invariant |scores| == epoch + 1
        invariant scores[0] == old(globalBest.bestEval) && scores[epoch] == globalBest.bestEval
        invariant StepsDown(scores)
        invariant epoch > 0 ==> forall k :: 0 <= k < |ps| ==> globalBest.bestEval <= ps[k].bestEval
        invariant |travels| == epoch
        invariant KeptMoving(totalSpaceSq, travels, smallestMovePct)
      {
        Epoch(ps, epoch, moveDraws);
        var travel := TotalVelocitySq(ps);
        StepsDownExtended(scores, globalBest.bestEval);
        scores := scores + [globalBest.bestEval];
        epochsRun := epoch + 1;
        // travel / 0.0 is NaN or +Infinity, which no comparison accepts
        if totalSpaceSq != 0.0 && Share(travel, totalSpaceSq) < smallestMovePct {
          KeptMovingEverywhere(totalSpaceSq, travels, smallestMovePct);
          travels := travels + [travel];
          break;
        }
        KeptMovingExtended(totalSpaceSq, travels, travel, smallestMovePct);
        travels := travels + [travel];
      }
      StepsDownEverywhere(scores);
      if KeptMoving(totalSpaceSq, travels, smallestMovePct) {
        KeptMovingEverywhere(totalSpaceSq, travels, smallestMovePct);
      }
    }

    /** `run()`: a fresh particle per entry of `initialDraws`, then the
        epochs. */
    method Run(initialDraws: seq<seq<real>>, moveDraws: (nat, nat) -> (real, real))
      returns (epochsRun: nat, ghost particles: seq<Particle>, ghost travels: seq<real>, ghost scores: seq<real>)
      requires Valid()
      requires |initialDraws| == numOfParticles
      requires forall k :: 0 <= k < |initialDraws| ==> |initialDraws[k]| == |objective.domains|
      modifies globalBest, globalBest.position.data, globalBest.bestPosition.data
      ensures Valid()
      ensures epochsRun <= epochs && |particles| == numOfParticles
      ensures |scores| == epochsRun + 1
      ensures scores[0] == old(globalBest.bestEval) && scores[epochsRun] == globalBest.bestEval
      ensures forall i, j :: 0 <= i <= j <= epochsRun ==> scores[j] <= scores[i]
      ensures epochsRun > 0 ==> forall k :: 0 <= k < |particles| ==> globalBest.bestEval <= particles[k].bestEval
      ensures |travels| == epochsRun
      ensures forall e :: 0 <= e < epochsRun - 1 ==>
                !StopsEarly(TotalSpaceSq(objective.domains), travels[e], smallestMovePct)
      ensures epochsRun < epochs ==>
                epochsRun > 0 && StopsEarly(TotalSpaceSq(objective.domains), travels[epochsRun - 1], smallestMovePct)
      ensures epochsRun < epochs ==>
                StopsEarly(TotalSpaceSq(objective.domains), TotalVelocitySq(particles), smallestMovePct)
    {
      var ps := CreateParticles(initialDraws);
      particles := ps;
      epochsRun, travels, scores := Epochs(ps, moveDraws);
    }
  }
}
