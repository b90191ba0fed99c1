/** The validated, immutable parameter bundle of one simulated-annealing run (AnnealingContext.java). */
module AnnealingConfig {
  import opened Wrappers
  import opened ProblemTypes

  /** The eight fields of the Java record; `deadline` is in milliseconds. */
  datatype AnnealingContext = AnnealingContext(
    initialTemperature: real,
    finalTemperature: real,
    coolingRate: real,
    steps: int,
    deadline: int,
    variationThreshold: real,
    variationPersitence: int,
    problemType: ProblemType)

  const NEGATIVE_TEMPERATURE := "Temperatures must have positive values."
  const TEMPERATURE_ORDER := "The initial temperature must be greater then final one."
  const COOLING_RATE_RANGE := "Cooling rate must have positive values less or equals than 0.5."
  const STEPS_POSITIVE := "Steps must have non null positive values."
  const DEADLINE_POSITIVE := "Deadline must have non null positive values."

  /** What the five guard clauses of the constructor accept; the variation parameters and the
      problem type are never checked. */
  predicate Admissible(initialTemperature: real, finalTemperature: real, coolingRate: real, steps: int, deadline: int)
  {
    && 0.0 <= initialTemperature
    && 0.0 <= finalTemperature
    && finalTemperature <= initialTemperature
    && 0.0 < coolingRate <= 0.5
    && 0 < steps
    && 0 < deadline
  }

  /** The eight-argument constructor: the first failing guard throws IllegalArgumentException,
      otherwise every argument is stored unchanged. */
  function NewAnnealingContext(initialTemperature: real, finalTemperature: real, coolingRate: real,
                               steps: int, deadline: int, variationThreshold: real,
                               variationPersitence: int, problemType: ProblemType): (r: Result<AnnealingContext>)
    ensures r.Ok? <==> Admissible(initialTemperature, finalTemperature, coolingRate, steps, deadline)
    ensures r.Ok? ==> r.value == AnnealingContext(initialTemperature, finalTemperature, coolingRate, steps,
                                                  deadline, variationThreshold, variationPersitence, problemType)
    ensures (initialTemperature < 0.0 || finalTemperature < 0.0) ==> r == Err(IllegalArgument(NEGATIVE_TEMPERATURE))
    ensures r.Err? ==> r.error.IllegalArgument?
  {
    if initialTemperature < 0.0 || finalTemperature < 0.0 then
      Err(IllegalArgument(NEGATIVE_TEMPERATURE))
    else if initialTemperature < finalTemperature then
      Err(IllegalArgument(TEMPERATURE_ORDER))
    else if coolingRate <= 0.0 || coolingRate > 0.5 then
      Err(IllegalArgument(COOLING_RATE_RANGE))
    else if steps <= 0 then
      Err(IllegalArgument(STEPS_POSITIVE))
    else if deadline <= 0 then
      Err(IllegalArgument(DEADLINE_POSITIVE))
    else
      Ok(AnnealingContext(initialTemperature, finalTemperature, coolingRate, steps, deadline,
                          variationThreshold, variationPersitence, problemType))
  }

  /** The one-argument constructor: (10000, 0.1, 0.01, 150000, 300, -1, -1) for the given problem
      type; these defaults pass the guards, so it never throws. */
  function DefaultAnnealingContext(problemType: ProblemType): (r: Result<AnnealingContext>)
    ensures r.Ok?
    ensures r.value.problemType == problemType
    ensures r.value.variationThreshold < 0.0
    ensures 0.0 < r.value.finalTemperature < r.value.initialTemperature
  {
    NewAnnealingContext(10000.0, 0.1, 0.01, 150000, 300, -1.0, -1, problemType)
  }

  /** Every rejection the guards make, one per clause, with the boundary values the unit tests
      probe: equal temperatures and a cooling rate of exactly 0.5 are accepted. */
  lemma ValidationBoundaries(p: ProblemType)
    ensures NewAnnealingContext(-100.0, 20.0, 0.01, 1000, 100, 1.0, 300, p).Err?
    ensures NewAnnealingContext(100.0, -20.0, 0.01, 1000, 100, 1.0, 300, p).Err?
    ensures NewAnnealingContext(10.0, 20.0, 0.01, 1000, 100, 1.0, 300, p) == Err(IllegalArgument(TEMPERATURE_ORDER))
    ensures NewAnnealingContext(20.0, 20.0, 0.5, 1000, 100, 1.0, 300, p).Ok?
    ensures NewAnnealingContext(100.0, 20.0, -0.01, 1000, 100, 1.0, 300, p) == Err(IllegalArgument(COOLING_RATE_RANGE))
    ensures NewAnnealingContext(100.0, 20.0, 0.51, 1000, 100, 1.0, 300, p) == Err(IllegalArgument(COOLING_RATE_RANGE))
    ensures NewAnnealingContext(100.0, 20.0, 0.01, 0, 100, 1.0, 300, p) == Err(IllegalArgument(STEPS_POSITIVE))
    ensures NewAnnealingContext(100.0, 20.0, 0.01, 1000, 0, 1.0, 300, p) == Err(IllegalArgument(DEADLINE_POSITIVE))
  {
  }

  /** The cooling factor 1 - coolingRate of an accepted context lies in [0.5, 1), so a positive
      temperature strictly decreases from one rung to the next and never drops below half. */
  lemma CoolingFactorRange(ctx: AnnealingContext, temperature: real)
    requires Admissible(ctx.initialTemperature, ctx.finalTemperature, ctx.coolingRate, ctx.steps, ctx.deadline)
    requires temperature > 0.0
    ensures 0.5 <= 1.0 - ctx.coolingRate < 1.0
    ensures temperature / 2.0 <= temperature * (1.0 - ctx.coolingRate) < temperature
  {
  }
}
