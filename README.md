# drevo-stochastic, modelled in Dafny

drevo-stochastic is a small Java library of stochastic optimisers:

- **Simulated annealing.** A geometric temperature ladder, with a countdown of trials at each temperature, Metropolis acceptance and an early stop on stalls or a deadline.
- **Particle-swarm optimisation (PSO).** A swarm of particles steered by their personal bests and the global best.
- **A progress channel.** Producers post events to it and a worker hands them to a handler.
- **Numeric utilities.** Closed intervals that carry a value, and dense matrices.

Its tests add a family of objective functions and a brute-force knapsack oracle. These are the knapsack, step, plateau, quadratic, sphere and sample objectives, and the mixed-integer enumeration.

This project models the deterministic core of all of the above.

- **Parameter bundles and constants.** The annealing and swarm parameter bundles and the problem-direction sign are datatypes and functions.
- **Stateful objects.** The annealing engine, the swarm, the progress listener, the particle, the interval, the matrix and the test objectives are classes. Their methods change their fields in place. Each method is proved against a specification function of the old state.
- **Specification functions.** Each is accompanied by lemmas for what the library promises:
  - monotone best values;
  - a one-way early-stop flag;
  - first-in, first-out delivery and drain-before-exit;
  - sound interval enclosures;
  - entry-wise matrix arithmetic;
  - the binary counter's arithmetic meaning;
  - the knapsack optimum;
  - the shape of each objective.

**Inputs abstracted as parameters.** Randomness, the wall clock and the Metropolis coin are all parameters:

- the annealing engine reads them from an `Oracle` indexed by its trial and clock-read counters;
- the particles read a `draw` sequence indexed by a draw counter;
- the objectives take their draws as method arguments.

**Numbers.** Java `double` is modelled as `real` and `int`/`long` as unbounded `int`.

The project has one module per source file:

- `Wrappers`: Result and the exception kinds.
- `ProblemTypes`, `AnnealingConfig`, `StateChannel`, `AnnealingMonitoring`, `Annealing`.
- `Intervals`, `Matrices`.
- `Particles`, `PsoConfig`, `Swarms`.
- `Knapsacks`, `MixedInteger`, `Steps`, `Plateaus`, `Quadratics`, `Spheres`, `Samples`.

## Model

| member | source | states |
|---|---|---|
| ProblemTypes.ProblemType.ValueOf | src/main/java/drevo/stochastic/ProblemType.java:4-10 | the sign is +1 or -1 (its square is 1), positive exactly for MINIMIZE |
| ProblemTypes.SignInvolution | src/main/java/drevo/stochastic/ProblemType.java:4-10 | signing is multiplying by the sign, and signing twice gives back the raw objective value |
| AnnealingConfig.NewAnnealingContext | src/main/java/drevo/stochastic/annealing/AnnealingContext.java:58-87 | accepted exactly when the five guards pass: non-negative temperatures, initial >= final, coolingRate in (0, 0.5], steps > 0 and deadline > 0; an accepted context stores every argument unchanged; a negative temperature gives the first error; every rejection is an IllegalArgumentException |
| AnnealingConfig.DefaultAnnealingContext | src/main/java/drevo/stochastic/annealing/AnnealingContext.java:54-56 | the default parameters pass validation; the context keeps the problem type, has a negative variation threshold and has 0 < final < initial temperature |
| AnnealingConfig.ValidationBoundaries | src/main/java/drevo/stochastic/annealing/AnnealingContext.java:58-77 | each guard rejects its boundary case with its own message; equal temperatures and a cooling rate of exactly 0.5 are accepted |
| AnnealingConfig.CoolingFactorRange | src/main/java/drevo/stochastic/annealing/AnnealingContext.java:67-69 | for an accepted context the cooling factor 1 - coolingRate is in [0.5, 1), so a positive temperature strictly decreases on each rung and at least halves |
| StateChannel.StateChangeListener.constructor | src/main/java/drevo/stochastic/state/StateChangeListener.java:27-33 | a new listener has an empty queue, the flag down and no handler calls |
| StateChannel.StateChangeListener.OnStateChange | src/main/java/drevo/stochastic/state/StateChangeListener.java:63-67 | appends the event at the tail; earlier entries, the flag and the handler calls are unchanged |
| StateChannel.StateChangeListener.Finish | src/main/java/drevo/stochastic/state/StateChangeListener.java:73-77 | raises the flag and changes nothing else |
| StateChannel.StateChangeListener.Step | src/main/java/drevo/stochastic/state/StateChangeListener.java:37-55 | reports termination exactly when the queue is empty and the flag is up; an empty queue changes nothing; otherwise it removes exactly the head, which goes to the handler once if there is one and is dropped if not |
| StateChannel.StateChangeListener.Run | src/main/java/drevo/stochastic/state/StateChangeListener.java:36-56 | once finished, the worker returns only with the queue empty, having handed every pending event to the handler in posting order; with a handler, the handler calls equal the posted events |
| StateChannel.Deliver | src/main/java/drevo/stochastic/state/StateChangeListener.java:36-77 | posting a sequence, finishing and draining hands the handler exactly that sequence in order, or nothing without a handler |
| AnnealingMonitoring.MonitorRun | src/main/java/drevo/stochastic/annealing/monitoring/AnnealingListener.java:22-65 | under any interleaving of posts and worker steps followed by finish and drain, the handler receives exactly the posted annealing events in order, or none without a handler |
| Annealing.StopCheckRules | src/main/java/drevo/stochastic/annealing/SimulatedAnnealing.java:266-293 | the stall counter grows when the energy stays within the variation threshold of the best value and resets otherwise; the flag rises once the counter reaches the persistence or the clock passes the end time, and is never lowered; the best candidate and the engine invariant are kept |
| Annealing.MoveRules | src/main/java/drevo/stochastic/annealing/SimulatedAnnealing.java:234-253 | acceptance of a valid candidate keeps the invariant, never makes the best value worse for the problem's direction, and leaves the flag, the counters and the clock alone |
| Annealing.AcceptanceRule | src/main/java/drevo/stochastic/annealing/SimulatedAnnealing.java:244-253 | a move that does not raise the energy is always accepted, otherwise the Metropolis coin decides; on acceptance the initial energy rolls forward, on rejection it is unchanged; best and bestValue are replaced together, exactly when an accepted move improves on bestValue |
| Annealing.TrialRules | src/main/java/drevo/stochastic/annealing/SimulatedAnnealing.java:226-256 | one trial keeps the invariant, never worsens the best value, never lowers the flag, uses exactly one call to reconfigure and only appends events |
| Annealing.InvalidCandidateSkipped | src/main/java/drevo/stochastic/annealing/SimulatedAnnealing.java:227-232 | an invalid candidate uses up its trial but skips acceptance and the early-stop check |
| Annealing.TrialValid | src/main/java/drevo/stochastic/annealing/SimulatedAnnealing.java:227-255 | a valid candidate goes through acceptance and then the early-stop check |
| Annealing.RungUnfold | src/main/java/drevo/stochastic/annealing/SimulatedAnnealing.java:226 | while the flag is down and steps remain, the countdown runs one more trial |
| Annealing.LadderStops | src/main/java/drevo/stochastic/annealing/SimulatedAnnealing.java:190-197 | with the flag up the cooling loop does nothing, not even a clock reading |
| Annealing.LadderHalts | src/main/java/drevo/stochastic/annealing/SimulatedAnnealing.java:190-197 | when the deadline has passed or the temperature reaches the final one, the loop ends after one clock reading |
| Annealing.LadderContinues | src/main/java/drevo/stochastic/annealing/SimulatedAnnealing.java:190-197 | otherwise a rung runs from the energy of best, and the temperature is multiplied by 1 - coolingRate |
| Annealing.RungRules | src/main/java/drevo/stochastic/annealing/SimulatedAnnealing.java:225-257 | a rung keeps the invariant, never worsens the best value, calls reconfigure at most `steps` times, never lowers the flag and does nothing once the flag is up |
| Annealing.LadderRules | src/main/java/drevo/stochastic/annealing/SimulatedAnnealing.java:190-197 | the whole cooling loop keeps the invariant and never worsens the best value; once the flag is up, no trial runs in this rung or any later one |
| Annealing.AnnealRules | src/main/java/drevo/stochastic/annealing/SimulatedAnnealing.java:170-216 | a run on a valid seed returns a valid candidate no worse than the seed; it posts the two opening events first and only the finishing event after the cooling loop |
| Annealing.SimulatedAnnealing.constructor | src/main/java/drevo/stochastic/annealing/SimulatedAnnealing.java:128-149 | best and last start as the seed, bestValue as its objective, every counter at zero and the flag down |
| Annealing.SimulatedAnnealing.CheckStopEarly | src/main/java/drevo/stochastic/annealing/SimulatedAnnealing.java:266-293 | the new engine state is the stop-check specification applied to the old one |
| Annealing.SimulatedAnnealing.Accept | src/main/java/drevo/stochastic/annealing/SimulatedAnnealing.java:234-253 | the new engine state is the acceptance specification applied to the old one |
| Annealing.SimulatedAnnealing.Attempt | src/main/java/drevo/stochastic/annealing/SimulatedAnnealing.java:227-255 | the new engine state is one trial of the old one |
| Annealing.SimulatedAnnealing.ChangeSolutionState | src/main/java/drevo/stochastic/annealing/SimulatedAnnealing.java:225-257 | the new engine state is the countdown of `steps` trials from the old one |
| Annealing.SimulatedAnnealing.CoolingRung | src/main/java/drevo/stochastic/annealing/SimulatedAnnealing.java:191-196 | the loop goes on exactly while the clock is before the end time and the temperature is above the final one; if so, a rung runs from the energy of best |
| Annealing.SimulatedAnnealing.Cool | src/main/java/drevo/stochastic/annealing/SimulatedAnnealing.java:190-197 | the new engine state is the cooling-ladder specification applied to the old one |
| Annealing.Optimize | src/main/java/drevo/stochastic/annealing/SimulatedAnnealing.java:170-216 | an invalid seed is returned as it is, after two events and without cooling; a valid seed yields the ladder's best, which is valid and no worse than the seed |
| Intervals.Clamp | src/main/java/drevo/math/Interval.java:74-82 | the stored value lies in [low, upper], equals v when v is inside, and is the nearer bound otherwise |
| Intervals.Min4 | src/main/java/drevo/math/Interval.java:119 | the least of the four endpoint combinations: a lower bound of each, and one of them |
| Intervals.Max4 | src/main/java/drevo/math/Interval.java:120 | the greatest of the four endpoint combinations: an upper bound of each, and one of them |
| Intervals.ProductEnclosure | src/main/java/drevo/math/Interval.java:111-124 | the product of any two points of the operands lies between the least and the greatest endpoint products |
| Intervals.QuotientEnclosure | src/main/java/drevo/math/Interval.java:126-143 | when the divisor's interval is clear of zero, the quotient of any two points lies between the least and the greatest endpoint quotients |
| Intervals.SumEnclosure | src/main/java/drevo/math/Interval.java:97-109 | sums and differences of points lie in [l1 + l2, u1 + u2] and [l1 - u2, u1 - l2] |
| Intervals.ReciprocalBetween | src/main/java/drevo/math/Interval.java:126-143 | taking reciprocals reverses the order of same-signed reals |
| Intervals.DivisorBetween | src/main/java/drevo/math/Interval.java:126-143 | dividing by a point of a divisor interval clear of zero lands between the two endpoint quotients |
| Intervals.Interval.Make | src/main/java/drevo/math/Interval.java:36-43 | stores the bounds and the clamped value |
| Intervals.Interval.SetValue | src/main/java/drevo/math/Interval.java:74-82 | the new value is the argument clamped to the bounds |
| Intervals.Interval.ChangeRandom | src/main/java/drevo/math/Interval.java:84-88 | the value becomes draw * (upper - low) + low, clamped, and the same object is returned |
| Intervals.Interval.Change | src/main/java/drevo/math/Interval.java:90-94 | the value becomes the old value scaled by 1 + variation, clamped, and the same object is returned |
| Intervals.Interval.Add | src/main/java/drevo/math/Interval.java:97-102 | a fresh interval [l1 + l2, u1 + u2] holding the sum of the values; the operands are unchanged |
| Intervals.Interval.Subtract | src/main/java/drevo/math/Interval.java:104-109 | a fresh interval [l1 - u2, u1 - l2] holding the difference of the values; the operands are unchanged |
| Intervals.Interval.Multiply | src/main/java/drevo/math/Interval.java:111-124 | a fresh interval bounded by the extreme endpoint products (low <= upper) holding the product of the values |
| Intervals.Interval.Divide | src/main/java/drevo/math/Interval.java:126-143 | an ArithmeticException exactly when the divisor's bounds straddle or touch zero; otherwise a fresh interval bounded by the extreme endpoint quotients holding the quotient of the values |
| Intervals.NewProduct | src/main/java/drevo/math/Interval.java:111-124 | the interval built by multiply is valid, with the extreme endpoint products as bounds |
| Intervals.NewQuotient | src/main/java/drevo/math/Interval.java:126-143 | the interval built by divide is valid, with the extreme endpoint quotients as bounds |
| Intervals.NewInterval | src/main/java/drevo/math/Interval.java:36-58 | rejected exactly when low > upper (equal bounds allowed); otherwise the bounds are stored and the value clamped |
| Intervals.NewRandomInterval | src/main/java/drevo/math/Interval.java:27-34 | rejected exactly when low > upper; otherwise a draw in [0, 1] gives the value draw * (upper - low) + low |
| Intervals.CopyInterval | src/main/java/drevo/math/Interval.java:45-52 | a separate interval with the same bounds and value |
| Intervals.ArithmeticExamples | src/main/java/drevo/math/Interval.java:74-143 | clamping keeps an in-range value; [1, 3] times [2, 4] is [2, 12] and divided by it is [0.25, 1.5] |
| Matrices.Matrix.Zeros | src/main/java/drevo/math/Matrix.java:10-14 | a rows x cols matrix of zeros in fresh storage |
| Matrices.Matrix.Get | src/main/java/drevo/math/Matrix.java:29-31 | the entry when the index is inside the storage; IndexOutOfBounds exactly otherwise |
| Matrices.Matrix.Set | src/main/java/drevo/math/Matrix.java:34-36 | inside the storage, get then returns the value and every other entry is unchanged; outside it, an IndexOutOfBounds and no change |
| Matrices.Matrix.Add | src/main/java/drevo/math/Matrix.java:39-53 | rejects mismatched dimensions; otherwise a fresh matrix of the same dimensions whose every entry is the sum, with the operands unchanged |
| Matrices.Matrix.Subtract | src/main/java/drevo/math/Matrix.java:56-70 | rejects mismatched dimensions; otherwise a fresh matrix whose every entry is the difference |
| Matrices.Matrix.Multiply | src/main/java/drevo/math/Matrix.java:73-89 | rejects unless cols equals the other's rows; otherwise a fresh rows x other.cols matrix whose entry (i, j) is the sum over k of a[i, k] * b[k, j] |
| Matrices.Matrix.ScalarMultiply | src/main/java/drevo/math/Matrix.java:92-102 | a fresh matrix of the same dimensions with every entry scaled |
| Matrices.FromRows | src/main/java/drevo/math/Matrix.java:17-26 | dimensions are the number of rows and the first row's length, with every entry copied into fresh storage; an empty source or a row shorter than the first is an IndexOutOfBounds |
| Particles.MovedRules | src/test/java/drevo/stochastic/pso/DoubleParticle.java:27-31 | moving adds the velocity to each coordinate and keeps the dimension; a zero velocity leaves the position alone, and moving back by the negated velocity restores it |
| Particles.ComponentRules | src/test/java/drevo/stochastic/pso/DoubleParticle.java:67-75 | the component has one entry per coordinate; it is all zeros when guide and current coincide, and with positive weight and draw each entry pulls towards the guide |
| Particles.CopyRules | src/test/java/drevo/stochastic/pso/DoubleParticle.java:33-54 | copying is idempotent and drops the personal best; a recorded personal best holds no nested one; assigning then copying equals copying the source |
| Particles.Clone | src/test/java/drevo/stochastic/pso/DoubleParticle.java:12-13 | a fresh array with the same entries |
| Particles.DoubleParticle.constructor | src/test/java/drevo/stochastic/pso/DoubleParticle.java:11-14 | stores clones of both arrays in fresh storage, so later edits by the caller do not reach the particle |
| Particles.DoubleParticle.SetVelocity | src/test/java/drevo/stochastic/pso/DoubleParticle.java:22-24 | replaces only the velocity, with a fresh clone |
| Particles.DoubleParticle.UpdatePosition | src/test/java/drevo/stochastic/pso/DoubleParticle.java:27-31 | the position becomes the old position moved by the velocity; a velocity shorter than the position throws after moving the prefix |
| Particles.DoubleParticle.Copy | src/test/java/drevo/stochastic/pso/DoubleParticle.java:34-36 | a fresh particle with cloned position and velocity, and nothing else |
| Particles.DoubleParticle.Assing | src/test/java/drevo/stochastic/pso/DoubleParticle.java:39-44 | position, velocity, a copy of the personal best and its fitness are taken from the argument; a missing personal best throws after the arrays are taken |
| Particles.DoubleParticle.SetPersonalBest | src/test/java/drevo/stochastic/pso/DoubleParticle.java:52-54 | records a fresh copy of the argument, so later moves of either particle do not change it |
| Particles.DoubleParticle.SetPersonalBestFitness | src/test/java/drevo/stochastic/pso/DoubleParticle.java:62-64 | replaces only the personal-best fitness |
| Particles.DoubleParticle.CalculateComponent | src/test/java/drevo/stochastic/pso/DoubleParticle.java:67-75 | a fresh array as long as the position holding weight * r_i * (guide_i - current_i); a guide or current particle shorter than the position throws |
| PsoConfig.NewPSOContext | src/main/java/drevo/stochastic/pso/PSOContext.java:39-53 | accepted exactly when maxIterations > 0 and every weight is non-negative, with zero allowed; the iteration check comes first; accepted arguments are stored unchanged and the variation parameters are not validated |
| PsoConfig.NewPSOContextDefaults | src/main/java/drevo/stochastic/pso/PSOContext.java:63-65 | the same acceptance, with variation threshold 0.0 and persistence Long.MAX_VALUE |
| Swarms.Recorded | src/main/java/drevo/stochastic/pso/PSO.java:84-86 | an initialised particle keeps position and velocity and records a copy of itself, with its fitness, as personal best |
| Swarms.BestRules | src/main/java/drevo/stochastic/pso/PSO.java:83-92 | after offering particles, the best fitness is at most the start value and every offered fitness; it is either the start value with the start particle kept, or the fitness of an offered particle that no earlier particle reaches, whose copy becomes the best particle |
| Swarms.InitialRules | src/main/java/drevo/stochastic/pso/PSO.java:77-93 | after construction the swarm is ready for the rounds and the global best fitness is the least of Double.MAX_VALUE and every personal-best fitness; one start event is posted |
| Swarms.Steered | src/main/java/drevo/stochastic/pso/PSO.java:171-191 | a velocity update keeps every particle shaped, with its personal best, and keeps the swarm size |
| Swarms.Advanced | src/main/java/drevo/stochastic/pso/PSO.java:133-162 | the per-particle update keeps the swarm ready and its size |
| Swarms.AdvancedRules | src/main/java/drevo/stochastic/pso/PSO.java:133-162 | only the updated particle and the global best may change; the global best changes exactly when its fitness strictly drops, and then becomes the particle's new personal best; 2d draws are used, nothing is posted, no fitness grows and the global best stays the least personal best |
| Swarms.DescendsTransitive | src/main/java/drevo/stochastic/pso/PSO.java:130-164 | no fitness growth composes across updates |
| Swarms.PassesDescend | src/main/java/drevo/stochastic/pso/PSO.java:130-164 | every prefix of a pass descends from its start and posts nothing |
| Swarms.PassesDraw | src/main/java/drevo/stochastic/pso/PSO.java:130-164 | a pass uses two runs of d random draws per particle |
| Swarms.PassesAgree | src/main/java/drevo/stochastic/pso/PSO.java:130-164 | a pass is determined by its starting state |
| Swarms.ImprovementsNext | src/main/java/drevo/stochastic/pso/PSO.java:103-114 | a round adds an event exactly when the global best fitness strictly decreased |
| Swarms.PSO.constructor | src/main/java/drevo/stochastic/pso/PSO.java:55-71 | the new swarm state is the initialised one, ready and with the least fitness as global best |
| Swarms.PSO.InitializeSwarm | src/main/java/drevo/stochastic/pso/PSO.java:77-93 | the new state records every particle and selects the first least-fitness particle as global best |
| Swarms.PSO.UpdateVelocity | src/main/java/drevo/stochastic/pso/PSO.java:171-191 | the new state is the velocity-update specification applied to the old one |
| Swarms.PSO.AdvanceParticle | src/main/java/drevo/stochastic/pso/PSO.java:133-162 | the new state is the per-particle specification applied to the old one |
| Swarms.PSO.ParticlesDynamic | src/main/java/drevo/stochastic/pso/PSO.java:130-164 | one sequential pass over every particle in index order; fitnesses only decrease, nothing is posted, and 2d draws are used per particle |
| Swarms.PSO.Optimize | src/main/java/drevo/stochastic/pso/PSO.java:99-125 | posts the start event, then runs exactly maxIterations rounds, posting an improvement event exactly in rounds where the global best fitness strictly decreased; fitnesses never grow |
| Swarms.PSO.Iterate | src/main/java/drevo/stochastic/pso/PSO.java:104-114 | one round: a full pass, then an event exactly when the global best strictly improved |
| Swarms.VelocityArray | src/main/java/drevo/stochastic/pso/PSO.java:183-188 | a fresh array whose entry i is inertia * v_i + cognitive_i + social_i |
| Swarms.NewPSO | src/main/java/drevo/stochastic/pso/PSO.java:55-71 | an empty swarm fails when the first particle is fetched; otherwise the optimiser starts in the initialised state |
| Knapsacks.Evaluate | src/test/java/drevo/stochastic/annealing/function/KnapsackFunction.java:76-88 | a selection lighter than the restriction scores its value with no penalty; with a non-negative penalty rate the score never exceeds the value; a selection longer than the lists is an IndexOutOfBounds |
| Knapsacks.PenaltyNonNegative | src/test/java/drevo/stochastic/annealing/function/KnapsackFunction.java:85 | the penalty is never negative for a non-negative rate, and is zero below the restriction |
| Knapsacks.WeightedZeros | src/test/java/drevo/stochastic/annealing/function/KnapsackFunction.java:51-53 | the empty selection weighs and is worth nothing |
| Knapsacks.WeightedFlip | src/test/java/drevo/stochastic/annealing/function/KnapsackFunction.java:97 | flipping one item changes the total by exactly that item's amount, up or down |
| Knapsacks.WeightedPrefix | src/test/java/drevo/stochastic/annealing/function/KnapsackFunction.java:80-83 | the total over n items depends only on the first n selection entries |
| Knapsacks.EvaluateExamples | src/test/java/drevo/stochastic/annealing/function/KnapsackFunction.java:76-88 | values [20, 15, 10] with weights [5, 8, 3], penalty 100 and restriction 10 score 30 for [1, 0, 1] and -265 for [1, 1, 0] |
| Knapsacks.Flipped | src/test/java/drevo/stochastic/annealing/function/KnapsackFunction.java:91-99 | the flips keep the length; every entry is kept or complemented, and an entry whose index is never drawn is kept |
| Knapsacks.FlippedParity | src/test/java/drevo/stochastic/annealing/function/KnapsackFunction.java:91-99 | after the flips, an entry is the original one when its index was drawn an even number of times, and flipped otherwise |
| Knapsacks.FlippedBinary | src/test/java/drevo/stochastic/annealing/function/KnapsackFunction.java:91-99 | a 0/1 selection stays a 0/1 selection |
| Knapsacks.KnapsackFunction.Make | src/test/java/drevo/stochastic/annealing/function/KnapsackFunction.java:43-56 | copies of the values and weights, with every selection entry 0 |
| Knapsacks.KnapsackFunction.ComputeOf | src/test/java/drevo/stochastic/annealing/function/KnapsackFunction.java:76-88 | the accumulating loop computes the knapsack score |
| Knapsacks.KnapsackFunction.Compute | src/test/java/drevo/stochastic/annealing/function/KnapsackFunction.java:72-74 | the score of the current selection, which never fails |
| Knapsacks.KnapsackFunction.IsValid | src/test/java/drevo/stochastic/annealing/function/KnapsackFunction.java:113-121 | true exactly when the selection weighs strictly less than the restriction |
| Knapsacks.KnapsackFunction.Reconfigure | src/test/java/drevo/stochastic/annealing/function/KnapsackFunction.java:91-99 | the selection becomes the drawn flips of the old one; values and weights are unchanged |
| Knapsacks.KnapsackFunction.Assign | src/test/java/drevo/stochastic/annealing/function/KnapsackFunction.java:102-110 | copies selection, values and weights from a knapsack of the same dimension; anything else changes nothing |
| Knapsacks.KnapsackFunction.Copy | src/test/java/drevo/stochastic/annealing/function/KnapsackFunction.java:124-134 | a fresh knapsack with equal selection, values, weights, penalty and restriction |
| Knapsacks.NewKnapsack | src/test/java/drevo/stochastic/annealing/function/KnapsackFunction.java:35-57 | empty lists are rejected first, then lists of unequal length; otherwise the values are stored and the selection is all zeros |
| MixedInteger.BitsNumber | src/test/java/drevo/stochastic/annealing/MixedIntegerFunctionTest.java:69-80 | the n bits of a k below 2^n are binary and decode back to k |
| MixedInteger.NumberBits | src/test/java/drevo/stochastic/annealing/MixedIntegerFunctionTest.java:69-80 | a binary list holds a number below 2^length, and is that number's bit pattern |
| MixedInteger.BitsNext | src/test/java/drevo/stochastic/annealing/MixedIntegerFunctionTest.java:69-80 | incrementing the bits of k gives the bits of k + 1 |
| MixedInteger.WrapBits | src/test/java/drevo/stochastic/annealing/MixedIntegerFunctionTest.java:69-80 | 2^n has the same n bits as 0 |
| MixedInteger.ZeroBits | src/test/java/drevo/stochastic/annealing/MixedIntegerFunctionTest.java:40-43 | the bits of 0 are all zeros |
| MixedInteger.IncrementedValue | src/test/java/drevo/stochastic/annealing/MixedIntegerFunctionTest.java:69-80 | incrementing a binary list adds one to its number modulo 2^length and keeps it binary |
| MixedInteger.IncrementedWrap | src/test/java/drevo/stochastic/annealing/MixedIntegerFunctionTest.java:69-80 | all ones, and only all ones, wraps to all zeros |
| MixedInteger.AllOnes | src/test/java/drevo/stochastic/annealing/MixedIntegerFunctionTest.java:49 | the entry sum of a pattern is at most n, and equals n exactly for 2^n - 1, the all-ones pattern |
| MixedInteger.BestUpToIsMaximum | src/test/java/drevo/stochastic/annealing/MixedIntegerFunctionTest.java:46-63 | the running best is the largest value of a feasible pattern among those evaluated, and stays minus infinity exactly when none of them is feasible |
| MixedInteger.Optimum | src/test/java/drevo/stochastic/annealing/MixedIntegerFunctionTest.java:46-63 | over all 2^n patterns the best is the knapsack optimum over every 0/1 selection; it is attained, and it is minus infinity exactly when nothing is feasible |
| MixedInteger.IncrementBinaryList | src/test/java/drevo/stochastic/annealing/MixedIntegerFunctionTest.java:69-80 | the in-place carry loop leaves the incremented list |
| MixedInteger.Carry | src/test/java/drevo/stochastic/annealing/MixedIntegerFunctionTest.java:69-80 | incrementing turns the leading nonzero entries into zeros |
| MixedInteger.MaximumValue | src/test/java/drevo/stochastic/annealing/MixedIntegerFunctionTest.java:33-66 | unequal lengths are rejected; otherwise the loop makes exactly 2^n - 1 increments and returns the best over the first 2^n - 1 patterns, all ones excluded |
| MixedInteger.Visit | src/test/java/drevo/stochastic/annealing/MixedIntegerFunctionTest.java:49-63 | one round evaluates pattern k, keeps it when feasible and strictly better, and advances the counter to k + 1 |
| MixedInteger.Evaluation | src/test/java/drevo/stochastic/annealing/MixedIntegerFunctionTest.java:53-56 | the inner loop computes the value and the weight of the selection |
| MixedInteger.MaximumValueCorrected | src/test/java/drevo/stochastic/annealing/MixedIntegerFunctionTest.java:33-66 | the enumeration over all 2^n patterns, whose result is the optimum of Optimum |
| MixedInteger.MissedSelection | src/test/java/drevo/stochastic/annealing/MixedIntegerFunctionTest.java:49 | one item of value 1 and weight 1 under restriction 10: the loop as written reports 0, the full enumeration reports 1 |
| Steps.StepOf | src/test/java/drevo/stochastic/annealing/function/StepFunction.java:29-37 | 1 exactly below 1, 0 exactly on [1, 2], -1 exactly above 2 |
| Steps.StepNonIncreasing | src/test/java/drevo/stochastic/annealing/function/StepFunction.java:29-37 | a larger argument never scores more, and every score is -1, 0 or 1 |
| Steps.StepFunction.constructor | src/test/java/drevo/stochastic/annealing/function/StepFunction.java:22 | x is drawn in [-5, 5), so a new function is valid |
| Steps.StepFunction.Reconfigure | src/test/java/drevo/stochastic/annealing/function/StepFunction.java:40-42 | a fresh draw in [-5, 5), always valid |
| Steps.StepFunction.Assign | src/test/java/drevo/stochastic/annealing/function/StepFunction.java:45-49 | takes x from another step function; anything else changes nothing |
| Steps.StepFunction.Copy | src/test/java/drevo/stochastic/annealing/function/StepFunction.java:57-61 | a fresh function with the same x and score |
| Plateaus.PlateauOf | src/test/java/drevo/stochastic/annealing/function/PlateauFunction.java:29-36 | never negative; zero exactly on [-1, 1]; |v| - 1 off the plateau |
| Plateaus.PlateauShape | src/test/java/drevo/stochastic/annealing/function/PlateauFunction.java:29-36 | symmetric in v; at most 9 on [-10, 10], reached exactly at the two ends |
| Plateaus.PlateauFunction.constructor | src/test/java/drevo/stochastic/annealing/function/PlateauFunction.java:22 | x is drawn in [-10, 10), so a new function is valid and scores at most 9 |
| Plateaus.PlateauFunction.Reconfigure | src/test/java/drevo/stochastic/annealing/function/PlateauFunction.java:39-41 | a fresh draw in [-10, 10), valid and scoring at most 9 |
| Plateaus.PlateauFunction.Assign | src/test/java/drevo/stochastic/annealing/function/PlateauFunction.java:44-48 | takes x from another plateau function; anything else changes nothing |
| Plateaus.PlateauFunction.Copy | src/test/java/drevo/stochastic/annealing/function/PlateauFunction.java:56-60 | a fresh function with the same x and score |
| Quadratics.QuadraticOf | src/test/java/drevo/stochastic/annealing/function/QuadraticFunction.java:33-38 | the score is never negative |
| Quadratics.QuadraticMinimum | src/test/java/drevo/stochastic/annealing/function/QuadraticFunction.java:33-38 | 2 scores 0 and is a global minimiser; at distance at least 1 from it the score is at least that distance |
| Quadratics.QuadraticFunction.constructor | src/test/java/drevo/stochastic/annealing/function/QuadraticFunction.java:26 | x is drawn in [-10, 10), so a new function is valid |
| Quadratics.QuadraticFunction.Reconfigure | src/test/java/drevo/stochastic/annealing/function/QuadraticFunction.java:41-43 | a fresh draw in [-10, 10), always valid |
| Quadratics.QuadraticFunction.Assign | src/test/java/drevo/stochastic/annealing/function/QuadraticFunction.java:46-50 | takes x from another quadratic function; anything else changes nothing |
| Quadratics.QuadraticFunction.Copy | src/test/java/drevo/stochastic/annealing/function/QuadraticFunction.java:58-62 | a fresh function with the same x and score |
| Spheres.SumOfSquares | src/test/java/drevo/stochastic/annealing/function/SphereFunction.java:51-56 | the score is never negative |
| Spheres.SumOfSquaresCoordinates | src/test/java/drevo/stochastic/annealing/function/SphereFunction.java:51-56 | no coordinate's square exceeds the score, and the origin scores 0 |
| Spheres.AcceptedAsWritten | src/test/java/drevo/stochastic/annealing/function/SphereFunction.java:79-81 | the validity filter as written accepts every list |
| Spheres.InDomainBounded | src/test/java/drevo/stochastic/annealing/function/SphereFunction.java:51-56 | on the intended domain [-10, 10] the score is at most 100 per coordinate |
| Spheres.OutOfDomainAccepted | src/test/java/drevo/stochastic/annealing/function/SphereFunction.java:79-81 | the coordinate 11 lies outside the domain but passes the check as written |
| Spheres.FactorRange | src/test/java/drevo/stochastic/annealing/function/SphereFunction.java:59-67 | each multiplicative factor lies in (0, 2) |
| Spheres.FactorsPositive | src/test/java/drevo/stochastic/annealing/function/SphereFunction.java:59-67 | every factor of a reconfigure pass lies in (0, 2) |
| Spheres.ScaledSigns | src/test/java/drevo/stochastic/annealing/function/SphereFunction.java:59-67 | scaling by positive factors keeps every entry's sign; zero entries stay zero |
| Spheres.SphereFunction.IsValid | src/test/java/drevo/stochastic/annealing/function/SphereFunction.java:79-81 | always true, as written |
| Spheres.SphereFunction.Make | src/test/java/drevo/stochastic/annealing/function/SphereFunction.java:33-40 | the entries are the draws, each in [0, 20) |
| Spheres.SphereFunction.Reconfigure | src/test/java/drevo/stochastic/annealing/function/SphereFunction.java:59-67 | an empty list fails the bound check; otherwise the entries are scaled by the drawn factors in turn, keeping the length and every sign |
| Spheres.SphereFunction.Assign | src/test/java/drevo/stochastic/annealing/function/SphereFunction.java:70-76 | copies every entry from a sphere function of the same dimension; anything else changes nothing |
| Spheres.SphereFunction.Copy | src/test/java/drevo/stochastic/annealing/function/SphereFunction.java:84-90 | a fresh function of the same dimension with equal entries and score |
| Spheres.NewSphere | src/test/java/drevo/stochastic/annealing/function/SphereFunction.java:33-40 | a negative dimension fails the list allocation; otherwise the entries are the draws |
| Samples.BoundOf | src/test/java/drevo/stochastic/annealing/function/SampleFunction.java:40-42 | the bound drawn below is positive: the given one when positive, else 20 |
| Samples.SampleFunction.Make | src/test/java/drevo/stochastic/annealing/function/SampleFunction.java:33-51 | the entries are the draws, each below the bound, and the index is the draw in [0, size) |
| Samples.SampleFunction.Reconfigure | src/test/java/drevo/stochastic/annealing/function/SampleFunction.java:75-77 | a new index in [0, size) with the entries unchanged; valid exactly when the new index is not 0 |
| Samples.SampleFunction.Assign | src/test/java/drevo/stochastic/annealing/function/SampleFunction.java:80-88 | copies entries and index from a sample function of the same size; anything else changes nothing |
| Samples.SampleFunction.Copy | src/test/java/drevo/stochastic/annealing/function/SampleFunction.java:96-102 | a fresh function with the same entries and index, hence the same score and validity |
| Samples.NewSample | src/test/java/drevo/stochastic/annealing/function/SampleFunction.java:33-51 | a size that is not positive is rejected; otherwise the entries are the draws and the index is the pick |

## Left out

- Floating point: every `double` is a real. Overflow, rounding, NaN and infinities are not modelled, except that the mixed-integer oracle's starting value Double.NEGATIVE_INFINITY is an explicit `NegativeInfinity` case.
- Threads and locks: the listener threads, `synchronized` blocks and the worker's busy wait are one sequential interleaving of posts, steps and the final drain. The worker's `run` is modelled only after `finish`, since before that it never returns.
- Swarms.PSO.constructor / Swarms.NewPSO: every particle is assumed to have a position and a velocity of length `dimension`, with a personal best of that length once recorded. The ArrayIndexOutOfBounds paths that a mis-shaped swarm reaches inside `optimize` (in `updateVelocity`, `calculateComponent` and `updatePosition`) are not modelled for the swarm; Particles.DoubleParticle.CalculateComponent and Particles.DoubleParticle.UpdatePosition model them for one particle. The particles are values, so the caller's own particle objects are not moved as the copied list in the Java constructor lets them be.
- StateChannel.StateChangeListener.Step: a null event is skipped without a handler call; events are values here, and no code in the library posts null.
- PSO's parallel `forEach` and its semaphore: one sequential pass in index order, which is one of the interleavings the parallel stream allows. The race between the unlocked comparison and the locked update is not modelled.
- Randomness, the wall clock, `Math.exp` and the Boltzmann constant are oracles or parameters. The Metropolis test is a boolean coin that applies only when the energy rises, and the deadline is a clock function indexed by the number of readings.
- Annealing.Optimize: the cooling loop over real temperatures has no termination argument, because the final temperature may be 0 and the clock is an oracle. The model therefore runs at most `fuel` rungs, and a run that needs more rungs is cut short.
- Annealing: the `probability` and `delta` fields and the context reference inside progress events are not in the events. The message text is reduced to the `Note` it selects.
- The thread leak on an invalid seed (no `finish` call) is a thread-lifecycle effect outside the model.
- Exception messages are kept as constant strings without formatted numbers. For example, the "Illegal Capacity" message carries no capacity.
- Getters, `toString` and the data-carrier records (`AnnealingState`, `PSOState`, `StateChange`) carry no logic. They are datatypes or are omitted.
- The `AnnealingFunction` and `Particle` interfaces are datatypes of functions (`compute`, `isValid`) plus per-class methods, not traits. Assignment of one candidate to another inside the engine is a value copy.
- The transcendental, noise and statistical-test objectives (Rastrigin, Michalewicz, inverse exponential, white noise, noisy quadratic) and the convergence assertions of the tests are not part of this model.
- PSO stores its variation parameters but never reads them, so no early stop is modelled for it.
- Matrices.Matrix.Zeros: dimensions are `nat`, so the NegativeArraySizeException for negative dimensions is not modelled.
- Quadratics.QuadraticOf: does not state that 2 is the only zero, because strict positivity of a real square off the minimiser is not provable with the nonlinear arithmetic available here. Nonnegativity and the distance bounds are stated instead.
- Quadratics.QuadraticMinimum: does not state that the score is positive away from 2, for the same reason. It states a lower bound at distance at least 1 instead.
- Spheres.SumOfSquares: does not state that a zero score forces every coordinate to zero. The converse and the per-coordinate bound are stated instead.
- Spheres.SumOfSquaresCoordinates: states only the direction "origin scores 0" of the zero characterisation, for the same nonlinear-arithmetic reason.
- Swarms.PSO.Optimize: states the preserved invariants, the non-increasing fitnesses, the event sequence and the draw count, not the exact final swarm.
- Swarms.Steered: states shape and size; the velocity formula itself is stated by Swarms.VelocityArray.
- Particles.DoubleParticle.CalculateComponent: the random draws `r_i` are a draw sequence indexed from a counter, not a random generator.

## Findings

| source | as written | input that shows it | evidently intended | confidence | as-written member | corrected member |
|---|---|---|---|---|---|---|
| src/test/java/drevo/stochastic/annealing/MixedIntegerFunctionTest.java:49 | the loop runs while the entry sum is below the length, so it stops when the counter reaches all ones without evaluating that selection | values [1], weights [1], restriction 10: selecting the item is feasible and worth 1, but the loop returns 0 | evaluate all 2^n selections, all ones included | not executed | MixedInteger.MaximumValue | MixedInteger.MaximumValueCorrected |
| src/test/java/drevo/stochastic/annealing/function/SphereFunction.java:79-81 | the filter asks for an entry below -10 and above 10 at once, which no entry satisfies, so every list is valid | the list [11.0] is accepted although 11 is outside [-10, 10] | every entry within [-10, 10] | not executed | Spheres.AcceptedAsWritten | Spheres.InDomainBounded |
