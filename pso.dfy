/** Particle-swarm optimisation (PSO.java), minimising a fitness function over a swarm of
    real-vector particles. The parallel per-particle update of a round is modelled as one
    sequential pass in index order, one of the interleavings the parallel stream allows; the
    random draws are an indexed source of numbers and the progress listener is the sequence of
    posted events. */
module Swarms {
  import opened Wrappers
  import opened PsoConfig
  import opened Particles

  /** Double.MAX_VALUE, the global best fitness before any particle is evaluated. */
  const DOUBLE_MAX_VALUE: real := 179769313486231570814527423731704356798070567525844996598917476803157260780028538760589558632766878171540458953514382464234321326889464182768467546703537516986049910576551282076245490090389328944075868508455133942304583236903222948165808559332123348274797826204144723168738177180919299881250404026184124858368.0

  /** Which progress message an event carries. */
  datatype PsoNote = SwarmInitialized | GlobalBestStart | Improvement

  /** A progress event (PSOState.java), without its formatted message. */
  datatype PSOState = PSOState(iterations: int, globalBestFitness: real, lastGlobalBestFitness: real, note: PsoNote)

  /** The mutable state of an optimiser. */
  datatype SwarmState = SwarmState(
    swarm: seq<Particle>,
    globalBest: Particle,
    globalBestFitness: real,
    draws: nat,
    posted: seq<PSOState>)

  /** A particle with `d` coordinates and `d` velocity entries. */
  predicate Shaped(p: Particle, d: nat)
  {
    |p.position| == d && |p.velocity| == d
  }

  /** Every particle is shaped and carries a personal best with `d` coordinates, and so does the
      global best: the shape every round relies on for its indexing. */
  predicate Ready(s: SwarmState, d: nat)
  {
    && (forall j :: 0 <= j < |s.swarm| ==> Fit(s.swarm[j], d))
    && |s.globalBest.position| == d
  }

  /** A shaped particle with a personal best of `d` coordinates. */
  predicate Fit(p: Particle, d: nat)
  {
    Shaped(p, d) && p.personalBest.Some? && |p.personalBest.value.position| == d
  }

  /** The global best fitness is the least of Double.MAX_VALUE and every personal best fitness. */
  predicate Leading(s: SwarmState)
  {
    && s.globalBestFitness <= DOUBLE_MAX_VALUE
    && (forall j :: 0 <= j < |s.swarm| ==> s.globalBestFitness <= s.swarm[j].personalBestFitness)
    && (s.globalBestFitness == DOUBLE_MAX_VALUE || exists j :: 0 <= j < |s.swarm| && s.swarm[j].personalBestFitness == s.globalBestFitness)
  }

  /** The velocity update: entry i is inertia * v_i + cognitive_i + social_i. */
  function NewVelocity(inertia: real, velocity: seq<real>, cognitive: seq<real>, social: seq<real>): seq<real>
    requires |cognitive| >= |velocity| && |social| >= |velocity|
  {
    seq(|velocity|, i requires 0 <= i < |velocity| => inertia * velocity[i] + cognitive[i] + social[i])
  }

  // ---------------------------------------------------------------------------------------
  // Initialisation

  /** A particle as `initializeSwarm` leaves it: a copy of itself recorded as personal best,
      with its fitness. */
  function Recorded(fitness: Particle -> real, p: Particle): (r: Particle)
    ensures r.position == p.position && r.velocity == p.velocity
    ensures r.personalBest == Some(CopyOf(p)) && r.personalBestFitness == fitness(p)
  {
    WithPersonalBest(p, CopyOf(p)).(personalBestFitness := fitness(p))
  }

  /** The global best fitness and particle after offering the first k particles, from g0 and b0:
      the best moves to a copy of a particle only on a strictly smaller fitness. */
  function Best(fitness: Particle -> real, swarm: seq<Particle>, g0: real, b0: Particle, k: nat): (real, Particle)
    requires k <= |swarm|
    decreases k
  {
    if k == 0 then (g0, b0)
    else
      var best := Best(fitness, swarm, g0, b0, k - 1);
      if fitness(swarm[k - 1]) < best.0 then (fitness(swarm[k - 1]), CopyOf(swarm[k - 1])) else best
  }

  /** The swarm after `initializeSwarm` has recorded the first k particles. */
  function RecordedUpTo(fitness: Particle -> real, swarm: seq<Particle>, k: nat): (r: seq<Particle>)
    ensures |r| == |swarm|
  {
    seq(|swarm|, j requires 0 <= j < |swarm| => if j < k then Recorded(fitness, swarm[j]) else swarm[j])
  }

  /** The state `initializeSwarm` reaches after the first k particles. */
  function Seeded(fitness: Particle -> real, s: SwarmState, k: nat): (r: SwarmState)
    requires k <= |s.swarm|
  {
    var best := Best(fitness, s.swarm, s.globalBestFitness, s.globalBest, k);
    s.(swarm := RecordedUpTo(fitness, s.swarm, k), globalBestFitness := best.0, globalBest := best.1)
  }

  /** The state after the constructor: the start event posted, the global best a copy of the
      first particle with fitness Double.MAX_VALUE, then every particle seeded. */
  function Initial(fitness: Particle -> real, swarm: seq<Particle>): SwarmState
    requires |swarm| > 0
  {
    Seeded(fitness, SwarmState(swarm, CopyOf(swarm[0]), DOUBLE_MAX_VALUE, 0, [PSOState(0, 0.0, 0.0, SwarmInitialized)]), |swarm|)
  }

  /** After offering k particles from g0, the best fitness is at most g0 and every offered
      fitness; it stays g0 with the best particle untouched, or it is the fitness of an offered
      particle, no earlier one reaching it, whose copy is the best particle. */
  lemma {:induction false} BestRules(fitness: Particle -> real, swarm: seq<Particle>, g0: real, b0: Particle, k: nat)
    requires k <= |swarm|
    ensures var best := Best(fitness, swarm, g0, b0, k);
      && best.0 <= g0
      && (forall j :: 0 <= j < k ==> best.0 <= fitness(swarm[j]))
      && (best.0 == g0 ==> best.1 == b0)
      && (best.0 < g0 ==>
            exists j :: 0 <= j < k && best.0 == fitness(swarm[j]) && best.1 == CopyOf(swarm[j])
                        && forall i :: 0 <= i < j ==> fitness(swarm[i]) > best.0)
    decreases k
  {
    if k > 0 {
      BestRules(fitness, swarm, g0, b0, k - 1);
      var best := Best(fitness, swarm, g0, b0, k - 1);
      if fitness(swarm[k - 1]) < best.0 {
        assert forall i :: 0 <= i < k - 1 ==> fitness(swarm[i]) > fitness(swarm[k - 1]);
      }
    }
  }

  /** The constructor leaves a swarm ready for the rounds, with the global best fitness the least
      of Double.MAX_VALUE and every initial fitness. */
  lemma InitialRules(fitness: Particle -> real, swarm: seq<Particle>, d: nat)
    requires |swarm| > 0 && forall j :: 0 <= j < |swarm| ==> Shaped(swarm[j], d)
    ensures Ready(Initial(fitness, swarm), d) && Leading(Initial(fitness, swarm))
    ensures Initial(fitness, swarm).posted == [PSOState(0, 0.0, 0.0, SwarmInitialized)]
  {
    var s := SwarmState(swarm, CopyOf(swarm[0]), DOUBLE_MAX_VALUE, 0, [PSOState(0, 0.0, 0.0, SwarmInitialized)]);
    BestRules(fitness, swarm, DOUBLE_MAX_VALUE, CopyOf(swarm[0]), |swarm|);
    var r := Initial(fitness, swarm);
    if r.globalBestFitness < DOUBLE_MAX_VALUE {
      var j :| 0 <= j < |swarm| && r.globalBestFitness == fitness(swarm[j]);
      assert r.swarm[j].personalBestFitness == r.globalBestFitness;
    }
  }

  // ---------------------------------------------------------------------------------------
  // One round

  /** `updateVelocity` on particle idx: the cognitive component pulls towards its personal best,
      the social one towards the global best, each on its own run of draws. */
  function Steered(ctx: PSOContext, draw: nat -> real, s: SwarmState, idx: nat, d: nat): (r: SwarmState)
    requires idx < |s.swarm| && Ready(s, d)
    ensures Ready(r, d) && |r.swarm| == |s.swarm|
  {
    var p := s.swarm[idx];
    var cognitive := Component(ctx.cognitiveWeight, draw, s.draws, p.personalBest.value.position, p.position, |p.position|);
    var social := Component(ctx.socialWeight, draw, s.draws + |p.position|, s.globalBest.position, p.position, |p.position|);
    s.(swarm := s.swarm[idx := p.(velocity := NewVelocity(ctx.inertiaWeight, p.velocity, cognitive, social))],
       draws := s.draws + 2 * |p.position|)
  }

  /** The body of the per-particle update: steer, move, evaluate; a strictly smaller fitness
      becomes the particle's personal best, and if it is also strictly below the global best
      fitness the global best takes it over. */
  function Advanced(ctx: PSOContext, fitness: Particle -> real, draw: nat -> real, s: SwarmState, idx: nat, d: nat): (r: SwarmState)
    requires idx < |s.swarm| && Ready(s, d)
    ensures Ready(r, d) && |r.swarm| == |s.swarm|
  {
    var s1 := Steered(ctx, draw, s, idx, d);
    var p := s1.swarm[idx];
    var moved := p.(position := Moved(p.position, p.velocity));
    var f := fitness(moved);
    if f < moved.personalBestFitness then
      var improved := WithPersonalBest(moved, moved).(personalBestFitness := f);
      var s2 := s1.(swarm := s1.swarm[idx := improved]);
      if f < s.globalBestFitness then s2.(globalBestFitness := f, globalBest := Assigned(improved)) else s2
    else
      s1.(swarm := s1.swarm[idx := moved])
  }

  /** What an update keeps, however many particles it touches: the swarm size, no growth of the
      global best fitness or of any personal best fitness, and the global best fitness as the
      least personal best fitness. */
  predicate Descends(s: SwarmState, r: SwarmState)
  {
    && |r.swarm| == |s.swarm|
    && r.globalBestFitness <= s.globalBestFitness
    && (forall j :: 0 <= j < |s.swarm| ==> r.swarm[j].personalBestFitness <= s.swarm[j].personalBestFitness)
    && (Leading(s) ==> Leading(r))
  }

  lemma DescendsTransitive(a: SwarmState, b: SwarmState, c: SwarmState)
    requires Descends(a, b) && Descends(b, c)
    ensures Descends(a, c)
  {
  }

  /** One update of particle idx: only that particle and the global best may change; the global
      best changes exactly when its fitness strictly drops, and then it is the particle's new
      personal best state; two runs of draws are used; and the update descends. */
  lemma AdvancedRules(ctx: PSOContext, fitness: Particle -> real, draw: nat -> real, s: SwarmState, idx: nat, d: nat)
    requires idx < |s.swarm| && Ready(s, d)
    ensures var r := Advanced(ctx, fitness, draw, s, idx, d);
      && (forall j :: 0 <= j < |s.swarm| && j != idx ==> r.swarm[j] == s.swarm[j])
      && (r.globalBestFitness < s.globalBestFitness ==>
            r.globalBestFitness == r.swarm[idx].personalBestFitness && r.globalBest == Assigned(r.swarm[idx]))
      && (r.globalBestFitness == s.globalBestFitness ==> r.globalBest == s.globalBest)
      && r.draws == s.draws + 2 * d && r.posted == s.posted
      && Descends(s, r)
  {
    var r := Advanced(ctx, fitness, draw, s, idx, d);
    if Leading(s) && r.globalBestFitness == s.globalBestFitness && s.globalBestFitness != DOUBLE_MAX_VALUE {
      var w :| 0 <= w < |s.swarm| && s.swarm[w].personalBestFitness == s.globalBestFitness;
      assert r.swarm[w].personalBestFitness == s.globalBestFitness;
    }
  }

  /** One more stride of c: c * (k + 1) == c * k + c. */
  lemma Stride(c: int, k: int)
    ensures (k + 1) * c == k * c + c
  {
  }

  /** A run of `particlesDynamic` over the first |trace| - 1 particles, given as the states
      between updates: state i + 1 is state i with particle i advanced. */
  predicate Passes(ctx: PSOContext, fitness: Particle -> real, draw: nat -> real, trace: seq<SwarmState>, d: nat)
  {
    && |trace| > 0
    && |trace| <= |trace[0].swarm| + 1
    && (forall i :: 0 <= i < |trace| ==> Ready(trace[i], d) && |trace[i].swarm| == |trace[0].swarm|)
    && (forall i {:trigger Advanced(ctx, fitness, draw, trace[i], i, d)} :: 0 <= i < |trace| - 1 ==>
          trace[i + 1] == Advanced(ctx, fitness, draw, trace[i], i, d))
  }

  /** Every prefix of a pass descends from where the pass started and posts nothing. */
  lemma {:induction false} PassesDescend(ctx: PSOContext, fitness: Particle -> real, draw: nat -> real, trace: seq<SwarmState>, d: nat, k: nat)
    requires Passes(ctx, fitness, draw, trace, d) && k < |trace|
    ensures Descends(trace[0], trace[k]) && trace[k].posted == trace[0].posted
    decreases k
  {
    if k > 0 {
      PassesDescend(ctx, fitness, draw, trace, d, k - 1);
      AdvancedRules(ctx, fitness, draw, trace[k - 1], k - 1, d);
      DescendsTransitive(trace[0], trace[k - 1], trace[k]);
    }
  }

  /** A pass uses two runs of d draws per particle. */
  lemma {:induction false} PassesDraw(ctx: PSOContext, fitness: Particle -> real, draw: nat -> real, trace: seq<SwarmState>, d: nat, k: nat)
    requires Passes(ctx, fitness, draw, trace, d) && k < |trace|
    ensures trace[k].draws == trace[0].draws + k * (2 * d)
    decreases k
  {
    if k > 0 {
      PassesDraw(ctx, fitness, draw, trace, d, k - 1);
      AdvancedRules(ctx, fitness, draw, trace[k - 1], k - 1, d);
      Stride(2 * d, k - 1);
    }
  }

  /** A pass is determined by where it starts: two passes from the same state agree on every
      state they both reach. */
  lemma {:induction false} PassesAgree(ctx: PSOContext, fitness: Particle -> real, draw: nat -> real,
                                       trace: seq<SwarmState>, other: seq<SwarmState>, d: nat, k: nat)
    requires Passes(ctx, fitness, draw, trace, d) && Passes(ctx, fitness, draw, other, d)
    requires trace[0] == other[0] && k < |trace| && k < |other|
    ensures trace[k] == other[k]
    decreases k
  {
    if k > 0 {
      PassesAgree(ctx, fitness, draw, trace, other, d, k - 1);
      assert trace[k] == Advanced(ctx, fitness, draw, trace[k - 1], k - 1, d);
    }
  }

  /** The progress events of `optimize` after its start event, for rounds numbered below n:
      improvements in increasing round order, each reporting a strictly smaller global best
      fitness than the one before it, the first starting from `from` and the last reaching `to`;
      with no event the global best fitness is still `from`. */
  predicate Improvements(events: seq<PSOState>, from: real, to: real, n: int)
    decreases |events|
  {
    if |events| == 0 then to == from
    else
      var e := events[|events| - 1];
      && e.note == Improvement && 0 <= e.iterations < n
      && e.globalBestFitness == to && to < e.lastGlobalBestFitness
      && Improvements(events[..|events| - 1], from, e.lastGlobalBestFitness, e.iterations)
  }

  /** A round that leaves the global best fitness at `next` extends the events: by one
      improvement numbered n when it strictly dropped, by nothing when it stayed. */
  lemma ImprovementsNext(events: seq<PSOState>, from: real, to: real, n: int, next: real)
    requires Improvements(events, from, to, n) && next <= to && n >= 0
    ensures next < to ==> Improvements(events + [PSOState(n, next, to, Improvement)], from, next, n + 1)
    ensures next == to ==> Improvements(events, from, to, n + 1)
  {
    assert (events + [PSOState(n, next, to, Improvement)])[..|events|] == events;
  }

  // ---------------------------------------------------------------------------------------
  // The optimiser

  class PSO {
    const ctx: PSOContext
    const fitness: Particle -> real
    const draw: nat -> real
    const dimension: nat
    var swarm: seq<Particle>
    var globalBest: Particle
    var globalBestFitness: real
    var draws: nat
    var posted: seq<PSOState>

    function State(): SwarmState
      reads this
    {
      SwarmState(swarm, globalBest, globalBestFitness, draws, posted)
    }

    /** `PSO(context, fitnessFunction, handler, initialSwarm)` on a non-empty swarm whose particles
        all have `dimension` coordinates: stores the configuration, then initialises the swarm. */
    constructor(ctx: PSOContext, fitness: Particle -> real, draw: nat -> real, initialSwarm: seq<Particle>, dimension: nat)
      requires |initialSwarm| > 0 && forall j :: 0 <= j < |initialSwarm| ==> Shaped(initialSwarm[j], dimension)
      ensures this.ctx == ctx && this.fitness == fitness && this.draw == draw && this.dimension == dimension
      ensures State() == Initial(fitness, initialSwarm)
      ensures Ready(State(), dimension) && Leading(State())
    {
      this.ctx := ctx;
      this.fitness := fitness;
      this.draw := draw;
      this.dimension := dimension;
      swarm := initialSwarm;
      globalBest := initialSwarm[0];
      globalBestFitness := DOUBLE_MAX_VALUE;
      draws := 0;
      posted := [];
      new;
      ghost var e := PSOState(0, 0.0, 0.0, SwarmInitialized);
      assert [] + [e] == [e];
      InitializeSwarm();
      InitialRules(fitness, initialSwarm, dimension);
    }

    /** `initializeSwarm`. */
    method InitializeSwarm()
      requires |swarm| > 0
      modifies this
      ensures State() == Seeded(fitness, old(State()).(globalBest := CopyOf(old(swarm[0])),
                                                         posted := old(posted) + [PSOState(0, 0.0, 0.0, SwarmInitialized)]), |old(swarm)|)
    {
      globalBest := CopyOf(swarm[0]);
      posted := posted + [PSOState(0, 0.0, 0.0, SwarmInitialized)];
      ghost var start := State();
      for i := 0 to |swarm|
        invariant swarm == RecordedUpTo(fitness, start.swarm, i)
        invariant (globalBestFitness, globalBest) == Best(fitness, start.swarm, start.globalBestFitness, start.globalBest, i)
        invariant draws == start.draws && posted == start.posted
      {
        var p := swarm[i];
        var f := fitness(p);
        swarm := swarm[i := WithPersonalBest(p, CopyOf(p)).(personalBestFitness := f)];
        if f < globalBestFitness {
          globalBestFitness := f;
          globalBest := CopyOf(p);
        }
      }
    }

    /** `updateVelocity` on particle idx: the two components, then the new velocity. */
    method UpdateVelocity(idx: nat)
      requires idx < |swarm| && Ready(State(), dimension)
      modifies this
      ensures State() == Steered(ctx, draw, old(State()), idx, dimension)
    {
      var p := swarm[idx];
      var n := |p.position|;
      var cognitive := Component(ctx.cognitiveWeight, draw, draws, p.personalBest.value.position, p.position, n);
      var social := Component(ctx.socialWeight, draw, draws + n, globalBest.position, p.position, n);
      draws := draws + 2 * n;
      var newVelocity := VelocityArray(ctx.inertiaWeight, p.velocity, cognitive, social);
      swarm := swarm[idx := p.(velocity := newVelocity[..])];
    }

    /** The per-particle body of `particlesDynamic`. */
    method AdvanceParticle(idx: nat)
      requires idx < |swarm| && Ready(State(), dimension)
      modifies this
      ensures State() == Advanced(ctx, fitness, draw, old(State()), idx, dimension)
    {
      UpdateVelocity(idx);
      var p := swarm[idx];
      p := p.(position := Moved(p.position, p.velocity));
      var currentFitness := fitness(p);
      if currentFitness < p.personalBestFitness {
        p := WithPersonalBest(p, p).(personalBestFitness := currentFitness);
        if currentFitness < globalBestFitness {
          globalBestFitness := currentFitness;
          globalBest := Assigned(p);
        }
      }
      swarm := swarm[idx := p];
    }

    /** `particlesDynamic`, one particle after another in index order; `trace` is the state
        before each update and after the last. */
    method ParticlesDynamic() returns (ghost trace: seq<SwarmState>)
      requires Ready(State(), dimension)
      modifies this
      ensures Passes(ctx, fitness, draw, trace, dimension) && |trace| == |old(swarm)| + 1
      ensures trace[0] == old(State()) && trace[|trace| - 1] == State()
      ensures Ready(State(), dimension) && Descends(old(State()), State()) && posted == old(posted)
      ensures draws == old(draws) + |swarm| * (2 * dimension)
    {
      trace := [State()];
      for index := 0 to |swarm|
        invariant Passes(ctx, fitness, draw, trace, dimension) && |trace| == index + 1
        invariant trace[0] == old(State()) && trace[index] == State()
      {
        AdvanceParticle(index);
        trace := trace + [State()];
      }
      PassesDescend(ctx, fitness, draw, trace, dimension, |trace| - 1);
      PassesDraw(ctx, fitness, draw, trace, dimension, |trace| - 1);
    }

    /** `optimize`: posts the start event, then runs maxIterations rounds (none when it is
        negative), each a full pass followed by an improvement event exactly when the global
        best fitness strictly dropped. */
    method Optimize()
      requires Ready(State(), dimension)
      modifies this
      ensures Ready(State(), dimension) && Descends(old(State()), State())
      ensures |posted| > |old(posted)| && posted[..|old(posted)| + 1] == old(posted) + [PSOState(0, 0.0, 0.0, GlobalBestStart)]
      ensures Improvements(posted[|old(posted)| + 1..], old(globalBestFitness), globalBestFitness, ctx.maxIterations)
      ensures draws == old(draws) + (if ctx.maxIterations < 0 then 0 else ctx.maxIterations) * (|swarm| * (2 * dimension))
    {
      ghost var origin := State();
      posted := posted + [PSOState(0, 0.0, 0.0, GlobalBestStart)];
      ghost var start := State();
      ghost var events: seq<PSOState> := [];
      ghost var stride := |swarm| * (2 * dimension);
      var iteration := 0;
      while iteration < ctx.maxIterations
        invariant Ready(State(), dimension) && Descends(origin, State())
        invariant posted == start.posted + events
        invariant Improvements(events, start.globalBestFitness, globalBestFitness, iteration)
        invariant 0 <= iteration && (iteration <= ctx.maxIterations || iteration == 0)
        invariant |swarm| == |start.swarm| && draws == start.draws + iteration * stride
      {
        ghost var before := State();
        Iterate(iteration);
        DescendsTransitive(origin, before, State());
        Stride(stride, iteration);
        ImprovementsNext(events, start.globalBestFitness, before.globalBestFitness, iteration, globalBestFitness);
        if globalBestFitness < before.globalBestFitness {
          events := events + [PSOState(iteration, globalBestFitness, before.globalBestFitness, Improvement)];
        }
        iteration := iteration + 1;
      }
      assert posted[|old(posted)| + 1..] == events;
    }

    /** One iteration of the loop of `optimize`: a full pass, then an improvement event exactly
        when the global best fitness strictly dropped. */
    method Iterate(iteration: int)
      requires Ready(State(), dimension)
      modifies this
      ensures Ready(State(), dimension) && Descends(old(State()), State())
      ensures globalBestFitness < old(globalBestFitness) ==>
        posted == old(posted) + [PSOState(iteration, globalBestFitness, old(globalBestFitness), Improvement)]
      ensures globalBestFitness == old(globalBestFitness) ==> posted == old(posted)
      ensures draws == old(draws) + |swarm| * (2 * dimension)
    {
      var lastGlobalBestFitness := globalBestFitness;
      var _ := ParticlesDynamic();
      if globalBestFitness - lastGlobalBestFitness < 0.0 {
        posted := posted + [PSOState(iteration, globalBestFitness, lastGlobalBestFitness, Improvement)];
      }
    }
  }

  /** The velocity array `updateVelocity` fills entry by entry: inertia * v_i + cognitive_i +
      social_i. */
  method VelocityArray(inertia: real, velocity: seq<real>, cognitive: seq<real>, social: seq<real>) returns (a: array<real>)
    requires |cognitive| >= |velocity| && |social| >= |velocity|
    ensures fresh(a) && a[..] == NewVelocity(inertia, velocity, cognitive, social)
  {
    a := new real[|velocity|];
    for i := 0 to a.Length
      invariant forall j :: 0 <= j < i ==> a[j] == inertia * velocity[j] + cognitive[j] + social[j]
    {
      a[i] := inertia * velocity[i] + cognitive[i] + social[i];
    }
    assert forall j :: 0 <= j < a.Length ==> a[..][j] == NewVelocity(inertia, velocity, cognitive, social)[j];
  }

  /** Building an optimiser: an empty swarm fails when the first particle is fetched. */
  method NewPSO(ctx: PSOContext, fitness: Particle -> real, draw: nat -> real, initialSwarm: seq<Particle>, dimension: nat)
    returns (r: Result<PSO>)
    requires forall j :: 0 <= j < |initialSwarm| ==> Shaped(initialSwarm[j], dimension)
    ensures r.Err? <==> |initialSwarm| == 0
    ensures r.Err? ==> r.error == IndexOutOfBounds
    ensures r.Ok? ==> fresh(r.value) && r.value.State() == Initial(fitness, initialSwarm)
  {
    if |initialSwarm| == 0 {
      return Err(IndexOutOfBounds);
    }
    var pso := new PSO(ctx, fitness, draw, initialSwarm, dimension);
    r := Ok(pso);
  }
}
