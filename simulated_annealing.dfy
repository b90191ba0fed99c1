/** The simulated-annealing control loop (SimulatedAnnealing.java): a geometric temperature ladder
    whose every rung runs a countdown of trials, with best-so-far tracking, a consecutive-stall
    counter and a one-way early-stop flag.

    The objective interface (AnnealingFunction.java) becomes `AnnealingFunction<T>`: the engine
    works on candidate values of type T and needs only their objective value and their validity.
    Everything the Java code draws from outside the program is an `Oracle`: the candidate that
    `reconfigure` produces on trial t, the Metropolis coin `rand < exp(-delta / (kB * T))` on
    trial t, and the wall clock on its i-th reading. */
module Annealing {
  import opened ProblemTypes
  import opened AnnealingConfig
  import opened AnnealingMonitoring

  /** The two capabilities of a candidate the engine reads: `compute` and `isValid`. Because the
      engine owns its two candidates exclusively and `assign` between two copies of one objective
      copies the whole state, `best.assign(last)` is the value assignment `best := last`, and
      `copy()` is the value itself. */
  datatype AnnealingFunction<!T> = AnnealingFunction(compute: T -> real, isValid: T -> bool)

  /** The nondeterministic inputs of a run, indexed by the trial number and the clock-read number. */
  datatype Oracle<!T> = Oracle(reconfigure: (T, nat) -> T, metropolis: nat -> bool, clock: nat -> int)

  /** A snapshot of the engine's fields; `trials` counts the calls to `reconfigure`,
      `clockReads` the calls to `System.currentTimeMillis`, and `posted` is the sequence of
      progress events handed to the listener. */
  datatype Search<T> = Search(
    best: T,
    last: T,
    initialEnergy: real,
    finalEnergy: real,
    delta: real,
    bestValue: real,
    persitenceCount: int,
    endTime: int,
    earlyStop: bool,
    trials: nat,
    clockReads: nat,
    posted: seq<AnnealingState>)

  function Abs(x: real): real { if x < 0.0 then -x else x }

  /** The comparison on line 245: `bestValue` is a raw objective value and the candidate's raw
      value is recovered from its minimising energy by a second multiplication by the sign. */
  predicate Improves(p: ProblemType, bestValue: real, raw: real)
  {
    (p == MAXIMIZE && bestValue < raw) || (p == MINIMIZE && bestValue > raw)
  }

  /** `after` is at least as good as `before` for the direction of the problem. */
  predicate NoWorse(p: ProblemType, after: real, before: real)
  {
    match p
    case MINIMIZE => after <= before
    case MAXIMIZE => after >= before
  }

  /** The private constructor: two copies of the seed, every number zero except `bestValue`,
      which holds the seed's raw objective value, and the flag down. */
  function Begin<T>(f: AnnealingFunction<T>, seed: T): Search<T>
  {
    Search(seed, seed, 0.0, 0.0, 0.0, f.compute(seed), 0, 0, false, 0, 0, [])
  }

  /** `checkStopEarly`: the stall counter grows while the last energy stays within
      `variationThreshold` of the best value and is reset otherwise; reaching
      `variationPersitence` raises the flag, and so does a clock reading at or past the deadline. */
  function StopCheck<T>(ctx: AnnealingContext, o: Oracle<T>, s: Search<T>, temperature: real, step: int): Search<T>
  {
    var variation := Abs(ctx.problemType.Signed(s.finalEnergy) - s.bestValue);
    var s1 :=
      if variation < ctx.variationThreshold then
        if s.persitenceCount + 1 >= ctx.variationPersitence then
          s.(persitenceCount := s.persitenceCount + 1, earlyStop := true,
             posted := s.posted + [AnnealingState(temperature, s.initialEnergy, s.finalEnergy, s.delta,
                                                  s.bestValue, step, true, StopByVariation)])
        else
          s.(persitenceCount := s.persitenceCount + 1)
      else
        s.(persitenceCount := 0);
    var now := o.clock(s1.clockReads);
    var s2 := s1.(clockReads := s1.clockReads + 1);
    if now >= s.endTime then
      s2.(earlyStop := true,
          posted := s2.posted + [AnnealingState(temperature, s2.initialEnergy, s2.finalEnergy, s2.delta,
                                                s2.bestValue, step, true, StopByTime)])
    else
      s2
  }

  /** The part of a trial that follows a valid candidate: its energy and delta are recorded, the
      move is accepted when the energy does not rise or the Metropolis coin says so, and an
      accepted move that improves on `bestValue` replaces `best` and posts an event carrying the
      previous best value. */
  function Move<T>(ctx: AnnealingContext, f: AnnealingFunction<T>, o: Oracle<T>, s: Search<T>,
                   temperature: real, step: int, coin: nat): Search<T>
  {
    var energy := ctx.problemType.Signed(f.compute(s.last));
    var delta := energy - s.initialEnergy;
    var s1 := s.(finalEnergy := energy, delta := delta);
    if !(delta <= 0.0 || o.metropolis(coin)) then
      s1
    else if Improves(ctx.problemType, s.bestValue, ctx.problemType.Signed(energy)) then
      s1.(posted := s1.posted + [AnnealingState(temperature, s.initialEnergy, energy, delta, s.bestValue,
                                                step, true, AcceptedConfiguration)],
          bestValue := ctx.problemType.Signed(energy),
          best := s.last,
          initialEnergy := energy)
    else
      s1.(initialEnergy := energy)
  }

  /** One pass of the inner loop body of `changeSolutionState` at `currentStep == step`: a fresh
      candidate from `reconfigure`; an invalid one is skipped without the early-stop check. */
  function Trial<T>(ctx: AnnealingContext, f: AnnealingFunction<T>, o: Oracle<T>, s: Search<T>,
                    temperature: real, step: int): Search<T>
  {
    var s1 := s.(last := o.reconfigure(s.last, s.trials), trials := s.trials + 1);
    if !f.isValid(s1.last) then s1
    else StopCheck(ctx, o, Move(ctx, f, o, s1, temperature, step, s.trials), temperature, step)
  }

  /** `changeSolutionState`: the countdown from `step` while the flag is down. */
  function Rung<T>(ctx: AnnealingContext, f: AnnealingFunction<T>, o: Oracle<T>, s: Search<T>,
                   temperature: real, step: int): Search<T>
    decreases if step > 0 then step else 0, 1
  {
    if s.earlyStop || step <= 0 then s
    else RungPass(ctx, f, o, s, temperature, step)
  }

  /** One pass of the countdown once the flag is known to be down and steps remain: a trial,
      then the rest of the countdown. */
  function RungPass<T>(ctx: AnnealingContext, f: AnnealingFunction<T>, o: Oracle<T>, s: Search<T>,
                       temperature: real, step: int): Search<T>
    requires step > 0
    decreases step, 0
  {
    Rung(ctx, f, o, Trial(ctx, f, o, s, temperature, step), temperature, step - 1)
  }

  /** The cooling loop of `optimize` from `temperature`, for at most `fuel` more rungs: it goes on
      while the flag is down, the clock is before the deadline and the temperature is above the
      final one. */
  function Ladder<T>(ctx: AnnealingContext, f: AnnealingFunction<T>, o: Oracle<T>, s: Search<T>,
                     temperature: real, fuel: nat): Search<T>
    decreases fuel, 1
  {
    if fuel == 0 || s.earlyStop then s
    else LadderPass(ctx, f, o, s, temperature, fuel)
  }

  /** One pass of the cooling loop once the flag is known to be down: the clock reading, the
      temperature test and, when both allow, a rung that first resets `initialEnergy` to the
      minimising energy of `best`, followed by the rest of the loop one cooling step lower. */
  function LadderPass<T>(ctx: AnnealingContext, f: AnnealingFunction<T>, o: Oracle<T>, s: Search<T>,
                         temperature: real, fuel: nat): Search<T>
    requires fuel > 0
    decreases fuel, 0
  {
    if !(o.clock(s.clockReads) < s.endTime && temperature > ctx.finalTemperature) then
      s.(clockReads := s.clockReads + 1)
    else
      var s2 := s.(clockReads := s.clockReads + 1, initialEnergy := ctx.problemType.Signed(f.compute(s.best)));
      Ladder(ctx, f, o, Rung(ctx, f, o, s2, temperature, ctx.steps),
             temperature * (1.0 - ctx.coolingRate), fuel - 1)
  }

  function StartEvent(note: Note, bestValue: real): AnnealingState
  {
    AnnealingState(0.0, 0.0, 0.0, 0.0, bestValue, 0, false, note)
  }

  /** The state in which the cooling loop starts for a valid seed: two events posted and the
      deadline fixed from the first clock reading. */
  function Started<T>(ctx: AnnealingContext, f: AnnealingFunction<T>, o: Oracle<T>, seed: T): Search<T>
  {
    var s := Begin(f, seed);
    s.(posted := [StartEvent(StartCooling, 0.0),
                  AnnealingState(0.0, s.initialEnergy, s.finalEnergy, s.delta, s.bestValue, 0, false, StartValue)],
       endTime := o.clock(0) + ctx.deadline,
       clockReads := 1)
  }

  /** The whole run on a valid seed, including the two closing events. */
  function Anneal<T>(ctx: AnnealingContext, f: AnnealingFunction<T>, o: Oracle<T>, seed: T, fuel: nat): Search<T>
  {
    var s := Ladder(ctx, f, o, Started(ctx, f, o, seed), ctx.initialTemperature, fuel);
    var s1 := if !f.isValid(s.best) then s.(posted := s.posted + [StartEvent(InvalidBest, s.bestValue)]) else s;
    s1.(posted := s1.posted + [StartEvent(FinishValue, s1.bestValue)])
  }

  /** What the engine keeps true once the seed has passed `isValid`: the best candidate is valid,
      `bestValue` is its raw objective value, and the stall counter is a count that stays zero
      when the threshold is not positive (so the default threshold -1 disables that early stop). */
  ghost predicate Invariant<T>(ctx: AnnealingContext, f: AnnealingFunction<T>, s: Search<T>)
  {
    && f.isValid(s.best)
    && s.bestValue == f.compute(s.best)
    && s.persitenceCount >= 0
    && (ctx.variationThreshold <= 0.0 ==> s.persitenceCount == 0)
  }

  /** The early-stop check never lowers the flag, keeps the invariant, and implements the
      consecutive-stall rule. */
  lemma StopCheckRules<T>(ctx: AnnealingContext, f: AnnealingFunction<T>, o: Oracle<T>, s: Search<T>,
                          temperature: real, step: int)
    requires Invariant(ctx, f, s)
    ensures var r := StopCheck(ctx, o, s, temperature, step);
      && Invariant(ctx, f, r)
      && (s.earlyStop ==> r.earlyStop)
      && r.best == s.best && r.bestValue == s.bestValue && r.trials == s.trials
      && r.initialEnergy == s.initialEnergy
      && r.persitenceCount == (if Abs(ctx.problemType.Signed(s.finalEnergy) - s.bestValue) < ctx.variationThreshold
                               then s.persitenceCount + 1 else 0)
      && (r.earlyStop <==> (s.earlyStop || (r.persitenceCount >= ctx.variationPersitence && r.persitenceCount > 0)
                                        || o.clock(s.clockReads) >= s.endTime))
  {
  }

  /** The move keeps the invariant when the candidate it looks at is valid, never makes
      `bestValue` worse, and leaves the flag, the counters and the clock alone. */
  lemma MoveRules<T>(ctx: AnnealingContext, f: AnnealingFunction<T>, o: Oracle<T>, s: Search<T>,
                     temperature: real, step: int, coin: nat)
    requires Invariant(ctx, f, s) && f.isValid(s.last)
    ensures var r := Move(ctx, f, o, s, temperature, step, coin);
      && Invariant(ctx, f, r)
      && NoWorse(ctx.problemType, r.bestValue, s.bestValue)
      && r.earlyStop == s.earlyStop && r.trials == s.trials && r.clockReads == s.clockReads
      && r.endTime == s.endTime && r.last == s.last
      && s.posted <= r.posted
  {
    SignInvolution(ctx.problemType, f.compute(s.last));
  }

  /** One trial keeps the invariant, never makes `bestValue` worse, never lowers the flag, uses
      exactly one call to `reconfigure`, and only appends to the posted events. */
  lemma TrialRules<T>(ctx: AnnealingContext, f: AnnealingFunction<T>, o: Oracle<T>, s: Search<T>,
                      temperature: real, step: int)
    requires Invariant(ctx, f, s)
    ensures var r := Trial(ctx, f, o, s, temperature, step);
      && Invariant(ctx, f, r)
      && NoWorse(ctx.problemType, r.bestValue, s.bestValue)
      && (s.earlyStop ==> r.earlyStop)
      && r.trials == s.trials + 1
      && s.posted <= r.posted
  {
    var s1 := s.(last := o.reconfigure(s.last, s.trials), trials := s.trials + 1);
    if f.isValid(s1.last) {
      TrialValid(ctx, f, o, s, temperature, step);
      var m := Move(ctx, f, o, s1, temperature, step, s.trials);
      MoveRules(ctx, f, o, s1, temperature, step, s.trials);
      StopCheckRules(ctx, f, o, m, temperature, step);
    } else {
      InvalidCandidateSkipped(ctx, f, o, s, temperature, step);
    }
  }

  /** The acceptance rule of a valid trial: a move that does not raise the energy is always
      accepted, and `initialEnergy` then rolls forward to the new energy; a rejected move leaves
      it unchanged. `best` is replaced, together with `bestValue`, exactly when an accepted move
      improves on `bestValue`. */
  lemma AcceptanceRule<T>(ctx: AnnealingContext, f: AnnealingFunction<T>, o: Oracle<T>, s: Search<T>,
                          temperature: real, step: int, coin: nat)
    ensures var energy := ctx.problemType.Signed(f.compute(s.last));
      var accepted := energy - s.initialEnergy <= 0.0 || o.metropolis(coin);
      var r := Move(ctx, f, o, s, temperature, step, coin);
      && r.finalEnergy == energy
      && r.initialEnergy == (if accepted then energy else s.initialEnergy)
      && (accepted && Improves(ctx.problemType, s.bestValue, f.compute(s.last)) ==>
            r.best == s.last && r.bestValue == f.compute(s.last))
      && (!(accepted && Improves(ctx.problemType, s.bestValue, f.compute(s.last))) ==>
            r.best == s.best && r.bestValue == s.bestValue)
  {
    SignInvolution(ctx.problemType, f.compute(s.last));
  }

  /** An invalid candidate changes nothing but `last` and the trial counter: no energy, no
      acceptance and no early-stop check. */
  lemma InvalidCandidateSkipped<T>(ctx: AnnealingContext, f: AnnealingFunction<T>, o: Oracle<T>, s: Search<T>,
                                   temperature: real, step: int)
    requires !f.isValid(o.reconfigure(s.last, s.trials))
    ensures Trial(ctx, f, o, s, temperature, step) == s.(last := o.reconfigure(s.last, s.trials), trials := s.trials + 1)
  {
  }

  /** A valid candidate goes through the acceptance step and then the early-stop check. */
  lemma TrialValid<T>(ctx: AnnealingContext, f: AnnealingFunction<T>, o: Oracle<T>, s: Search<T>,
                      temperature: real, step: int)
    requires f.isValid(o.reconfigure(s.last, s.trials))
    ensures Trial(ctx, f, o, s, temperature, step)
         == StopCheck(ctx, o, Move(ctx, f, o, s.(last := o.reconfigure(s.last, s.trials), trials := s.trials + 1),
                                   temperature, step, s.trials), temperature, step)
  {
  }

  /** One more trial of a rung that is still running. */
  lemma RungUnfold<T>(ctx: AnnealingContext, f: AnnealingFunction<T>, o: Oracle<T>, s: Search<T>,
                      temperature: real, step: int)
    requires !s.earlyStop && step > 0
    ensures Rung(ctx, f, o, s, temperature, step)
         == Rung(ctx, f, o, Trial(ctx, f, o, s, temperature, step), temperature, step - 1)
  {
  }

  /** A ladder out of fuel or with its flag up does nothing, not even a clock reading. */
  lemma LadderStops<T>(ctx: AnnealingContext, f: AnnealingFunction<T>, o: Oracle<T>, s: Search<T>,
                       temperature: real, fuel: nat)
    requires fuel == 0 || s.earlyStop
    ensures Ladder(ctx, f, o, s, temperature, fuel) == s
  {
  }

  /** A ladder whose flag is down but whose clock reading or temperature ends the cooling loop
      only records the clock reading. */
  lemma LadderHalts<T>(ctx: AnnealingContext, f: AnnealingFunction<T>, o: Oracle<T>, s: Search<T>,
                       temperature: real, fuel: nat)
    requires !s.earlyStop && fuel > 0
    requires !(o.clock(s.clockReads) < s.endTime && temperature > ctx.finalTemperature)
    ensures Ladder(ctx, f, o, s, temperature, fuel) == s.(clockReads := s.clockReads + 1)
  {
  }

  /** Otherwise one more rung runs, from the energy of `best`, and the temperature cools. */
  lemma LadderContinues<T>(ctx: AnnealingContext, f: AnnealingFunction<T>, o: Oracle<T>, s: Search<T>,
                           temperature: real, fuel: nat)
    requires !s.earlyStop && fuel > 0
    requires o.clock(s.clockReads) < s.endTime && temperature > ctx.finalTemperature
    ensures Ladder(ctx, f, o, s, temperature, fuel)
         == Ladder(ctx, f, o, Rung(ctx, f, o, s.(clockReads := s.clockReads + 1,
                                                   initialEnergy := ctx.problemType.Signed(f.compute(s.best))),
                                   temperature, ctx.steps),
                   temperature * (1.0 - ctx.coolingRate), fuel - 1)
  {
    var s2 := s.(clockReads := s.clockReads + 1, initialEnergy := ctx.problemType.Signed(f.compute(s.best)));
    assert LadderPass(ctx, f, o, s, temperature, fuel)
        == Ladder(ctx, f, o, Rung(ctx, f, o, s2, temperature, ctx.steps), temperature * (1.0 - ctx.coolingRate), fuel - 1);
  }

  /** A rung keeps the invariant, never makes `bestValue` worse, calls `reconfigure` at most
      `step` times, never lowers the flag, and does nothing at all once the flag is up. */
  lemma {:induction false} RungRules<T>(ctx: AnnealingContext, f: AnnealingFunction<T>, o: Oracle<T>,
                                        s: Search<T>, temperature: real, step: int)
    requires Invariant(ctx, f, s)
    ensures var r := Rung(ctx, f, o, s, temperature, step);
      && Invariant(ctx, f, r)
      && NoWorse(ctx.problemType, r.bestValue, s.bestValue)
      && (s.earlyStop ==> r == s)
      && (s.earlyStop ==> r.earlyStop)
      && s.trials <= r.trials <= s.trials + (if step > 0 then step else 0)
      && s.posted <= r.posted
    decreases step
  {
    if !(s.earlyStop || step <= 0) {
      var t := Trial(ctx, f, o, s, temperature, step);
      TrialRules(ctx, f, o, s, temperature, step);
      RungRules(ctx, f, o, t, temperature, step - 1);
    }
  }

  /** The whole ladder keeps the invariant and never makes `bestValue` worse; once the flag is up
      no further trial runs. */
  lemma {:induction false} LadderRules<T>(ctx: AnnealingContext, f: AnnealingFunction<T>, o: Oracle<T>,
                                          s: Search<T>, temperature: real, fuel: nat)
    requires Invariant(ctx, f, s)
    ensures var r := Ladder(ctx, f, o, s, temperature, fuel);
      && Invariant(ctx, f, r)
      && NoWorse(ctx.problemType, r.bestValue, s.bestValue)
      && (s.earlyStop ==> r == s)
      && s.trials <= r.trials
      && s.posted <= r.posted
    decreases fuel
  {
    if fuel == 0 || s.earlyStop {
      LadderStops(ctx, f, o, s, temperature, fuel);
    } else if o.clock(s.clockReads) < s.endTime && temperature > ctx.finalTemperature {
      LadderContinues(ctx, f, o, s, temperature, fuel);
      var s2 := s.(clockReads := s.clockReads + 1, initialEnergy := ctx.problemType.Signed(f.compute(s.best)));
      assert Invariant(ctx, f, s2);
      var next := Rung(ctx, f, o, s2, temperature, ctx.steps);
      RungRules(ctx, f, o, s2, temperature, ctx.steps);
      LadderRules(ctx, f, o, next, temperature * (1.0 - ctx.coolingRate), fuel - 1);
    } else {
      LadderHalts(ctx, f, o, s, temperature, fuel);
    }
  }

  /** A run on a valid seed returns a valid candidate that is no worse than the seed, posts its
      two opening events first, and after the cooling loop posts only the finishing event (the
      "invalid solution" diagnostic never fires). */
  lemma {:induction false} AnnealRules<T>(ctx: AnnealingContext, f: AnnealingFunction<T>, o: Oracle<T>,
                                          seed: T, fuel: nat)
    requires f.isValid(seed)
    ensures var r := Anneal(ctx, f, o, seed, fuel);
      && f.isValid(r.best)
      && NoWorse(ctx.problemType, f.compute(r.best), f.compute(seed))
      && |r.posted| >= 3
      && r.posted[0].note == StartCooling && r.posted[1].note == StartValue
      && r.posted == Ladder(ctx, f, o, Started(ctx, f, o, seed), ctx.initialTemperature, fuel).posted
                     + [StartEvent(FinishValue, f.compute(r.best))]
  {
    var s0 := Started(ctx, f, o, seed);
    assert Invariant(ctx, f, s0);
    LadderRules(ctx, f, o, s0, ctx.initialTemperature, fuel);
    var s := Ladder(ctx, f, o, s0, ctx.initialTemperature, fuel);
    assert s0.posted <= s.posted;
  }

  /** The engine object: the fields of SimulatedAnnealing.java that change during a run. */
  class SimulatedAnnealing<T> {
    const ctx: AnnealingContext
    const objective: AnnealingFunction<T>
    const oracle: Oracle<T>

    var best: T
    var last: T
    var initialEnergy: real
    var finalEnergy: real
    var delta: real
    var bestValue: real
    var persitenceCount: int
    var endTime: int
    var earlyStop: bool
    var trials: nat
    var clockReads: nat
    var posted: seq<AnnealingState>

    function State(): Search<T>
      reads this
    {
      Search(best, last, initialEnergy, finalEnergy, delta, bestValue, persitenceCount, endTime,
             earlyStop, trials, clockReads, posted)
    }

    constructor (ctx: AnnealingContext, objective: AnnealingFunction<T>, oracle: Oracle<T>, seed: T)
      ensures this.ctx == ctx && this.objective == objective && this.oracle == oracle
      ensures State() == Begin(objective, seed)
    {
      this.ctx := ctx;
      this.objective := objective;
      this.oracle := oracle;
      best := seed;
      last := seed;
      initialEnergy := 0.0;
      finalEnergy := 0.0;
      delta := 0.0;
      bestValue := objective.compute(seed);
      persitenceCount := 0;
      endTime := 0;
      earlyStop := false;
      trials := 0;
      clockReads := 0;
      posted := [];
    }

    /** `checkStopEarly`. */
    method CheckStopEarly(temperature: real, currentStep: int)
      modifies this
      ensures State() == StopCheck(ctx, oracle, old(State()), temperature, currentStep)
    {
      var variation := Abs(ctx.problemType.Signed(finalEnergy) - bestValue);
      if variation < ctx.variationThreshold {
        persitenceCount := persitenceCount + 1;
        if persitenceCount >= ctx.variationPersitence {
          earlyStop := true;
          posted := posted + [AnnealingState(temperature, initialEnergy, finalEnergy, delta, bestValue,
                                             currentStep, true, StopByVariation)];
        }
      } else {
        persitenceCount := 0;
      }
      var now := oracle.clock(clockReads);
      clockReads := clockReads + 1;
      if now >= endTime {
        earlyStop := true;
        posted := posted + [AnnealingState(temperature, initialEnergy, finalEnergy, delta, bestValue,
                                           currentStep, true, StopByTime)];
      }
    }

    /** The acceptance half of one trial of `changeSolutionState`, on the valid candidate `last`. */
    method Accept(temperature: real, currentStep: int, coin: nat)
      modifies this
      ensures State() == Move(ctx, objective, oracle, old(State()), temperature, currentStep, coin)
    {
      finalEnergy, delta := ctx.problemType.Signed(objective.compute(last)),
                            ctx.problemType.Signed(objective.compute(last)) - initialEnergy;
      if delta <= 0.0 || oracle.metropolis(coin) {
        if Improves(ctx.problemType, bestValue, ctx.problemType.Signed(finalEnergy)) {
          posted, bestValue, best, initialEnergy :=
            posted + [AnnealingState(temperature, initialEnergy, finalEnergy, delta, bestValue,
                                     currentStep, true, AcceptedConfiguration)],
            ctx.problemType.Signed(finalEnergy), last, finalEnergy;
        } else {
          initialEnergy := finalEnergy;
        }
      }
    }

    /** The body of the countdown loop of `changeSolutionState`: one call to `reconfigure`, then,
        for a valid candidate, the acceptance step and `checkStopEarly`. */
    method Attempt(temperature: real, currentStep: int)
      modifies this
      ensures State() == Trial(ctx, objective, oracle, old(State()), temperature, currentStep)
    {
      ghost var before := State();
      last, trials := oracle.reconfigure(last, trials), trials + 1;
      assert State() == before.(last := oracle.reconfigure(before.last, before.trials), trials := before.trials + 1);
      if objective.isValid(last) {
        TrialValid(ctx, objective, oracle, before, temperature, currentStep);
        Accept(temperature, currentStep, trials - 1);
        CheckStopEarly(temperature, currentStep);
      } else {
        InvalidCandidateSkipped(ctx, objective, oracle, before, temperature, currentStep);
      }
    }

    /** `changeSolutionState`: at most `steps` trials at one temperature; an invalid candidate is
        skipped but still uses up its step. */
    method ChangeSolutionState(temperature: real)
      modifies this
      ensures State() == Rung(ctx, objective, oracle, old(State()), temperature, ctx.steps)
    {
      ghost var target := Rung(ctx, objective, oracle, State(), temperature, ctx.steps);
      var currentStep := ctx.steps;
      while !earlyStop && currentStep > 0
        invariant Rung(ctx, objective, oracle, State(), temperature, currentStep) == target
        decreases currentStep
      {
        RungUnfold(ctx, objective, oracle, State(), temperature, currentStep);
        Attempt(temperature, currentStep);
        currentStep := currentStep - 1;
      }
    }

    /** One test of the condition of the cooling loop of `optimize` (flag already down): the
        clock and the temperature are tested in that order and, when they allow, one rung runs
        from the energy of `best`. */
    method CoolingRung(t: real) returns (running: bool)
      modifies this
      ensures running == (oracle.clock(old(clockReads)) < old(endTime) && t > ctx.finalTemperature)
      ensures running ==>
        State() == Rung(ctx, objective, oracle,
                        old(State()).(clockReads := old(clockReads) + 1,
                                      initialEnergy := ctx.problemType.Signed(objective.compute(old(best)))),
                        t, ctx.steps)
      ensures !running ==> State() == old(State()).(clockReads := old(clockReads) + 1)
    {
      var now := oracle.clock(clockReads);
      clockReads := clockReads + 1;
      if !(now < endTime && t > ctx.finalTemperature) {
        running := false;
      } else {
        initialEnergy := ctx.problemType.Signed(objective.compute(best));
        ChangeSolutionState(t);
        running := true;
      }
    }

    /** The cooling loop of `optimize`, for at most `fuel` rungs, each at a temperature
        `1 - coolingRate` times the previous one. */
    method Cool(temperature: real, fuel: nat)
      modifies this
      ensures State() == Ladder(ctx, objective, oracle, old(State()), temperature, fuel)
    {
      var t := temperature;
      var remaining := fuel;
      var running := true;
      while running
        invariant running ==>
          Ladder(ctx, objective, oracle, State(), t, remaining) == Ladder(ctx, objective, oracle, old(State()), temperature, fuel)
        invariant !running ==> State() == Ladder(ctx, objective, oracle, old(State()), temperature, fuel)
        decreases remaining, running
      {
        if remaining == 0 || earlyStop {
          LadderStops(ctx, objective, oracle, State(), t, remaining);
          running := false;
        } else {
          ghost var before := State();
          running := CoolingRung(t);
          if running {
            LadderContinues(ctx, objective, oracle, before, t, remaining);
            t := t * (1.0 - ctx.coolingRate);
            remaining := remaining - 1;
          } else {
            LadderHalts(ctx, objective, oracle, before, t, remaining);
          }
        }
      }
    }
  }

  /** `optimize`: the run on `seed` with at most `fuel` temperature rungs. An invalid seed posts
      two events and returns the seed itself without entering the cooling loop; a valid seed
      returns a valid candidate no worse than the seed. */
  method Optimize<T>(ctx: AnnealingContext, objective: AnnealingFunction<T>, seed: T, oracle: Oracle<T>, fuel: nat)
    returns (result: T, posted: seq<AnnealingState>)
    ensures !objective.isValid(seed) ==>
              result == seed && posted == [StartEvent(StartCooling, 0.0), StartEvent(InvalidSeed, 0.0)]
    ensures objective.isValid(seed) ==>
              && result == Anneal(ctx, objective, oracle, seed, fuel).best
              && posted == Anneal(ctx, objective, oracle, seed, fuel).posted
    ensures objective.isValid(seed) ==>
              objective.isValid(result) && NoWorse(ctx.problemType, objective.compute(result), objective.compute(seed))
  {
    var sa := new SimulatedAnnealing(ctx, objective, oracle, seed);
    sa.posted := sa.posted + [StartEvent(StartCooling, 0.0)];
    if !objective.isValid(seed) {
      sa.posted := sa.posted + [StartEvent(InvalidSeed, 0.0)];
      return seed, sa.posted;
    }
    sa.posted := sa.posted + [AnnealingState(0.0, sa.initialEnergy, sa.finalEnergy, sa.delta, sa.bestValue,
                                             0, false, StartValue)];
    sa.endTime := oracle.clock(sa.clockReads) + ctx.deadline;
    sa.clockReads := sa.clockReads + 1;
    ghost var start := Started(ctx, objective, oracle, seed);
    assert sa.State() == start;

    sa.Cool(ctx.initialTemperature, fuel);

    if !objective.isValid(sa.best) {
      sa.posted := sa.posted + [StartEvent(InvalidBest, sa.bestValue)];
    }
    sa.posted := sa.posted + [StartEvent(FinishValue, sa.bestValue)];
    result, posted := sa.best, sa.posted;
    AnnealRules(ctx, objective, oracle, seed, fuel);
  }
}
