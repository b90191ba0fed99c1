/** The validated parameter bundle of a particle-swarm run (PSOContext.java). */
module PsoConfig {
  import opened Wrappers

  const LONG_MAX_VALUE: int := 9223372036854775807

  datatype PSOContext = PSOContext(
    maxIterations: int,
    inertiaWeight: real,
    cognitiveWeight: real,
    socialWeight: real,
    variationThreshold: real,
    variationPersitence: int)

  const ITERATIONS_POSITIVE := "maxIterations must be greater than 0"
  const WEIGHTS_NON_NEGATIVE := "Weights must be non-negative"

  /** The six-argument constructor: a non-positive iteration count or any negative weight throws
      IllegalArgumentException (the iteration check first); otherwise every argument is stored
      unchanged. The variation parameters are never checked. */
  function NewPSOContext(maxIterations: int, inertiaWeight: real, cognitiveWeight: real, socialWeight: real,
                         variationThreshold: real, variationPersitence: int): (r: Result<PSOContext>)
    ensures r.Ok? <==> (maxIterations > 0 && inertiaWeight >= 0.0 && cognitiveWeight >= 0.0 && socialWeight >= 0.0)
    ensures maxIterations <= 0 ==> r == Err(IllegalArgument(ITERATIONS_POSITIVE))
    ensures maxIterations > 0 && r.Err? ==> r == Err(IllegalArgument(WEIGHTS_NON_NEGATIVE))
    ensures r.Ok? ==> r.value == PSOContext(maxIterations, inertiaWeight, cognitiveWeight, socialWeight,
                                            variationThreshold, variationPersitence)
  {
    if maxIterations <= 0 then
      Err(IllegalArgument(ITERATIONS_POSITIVE))
    else if inertiaWeight < 0.0 || cognitiveWeight < 0.0 || socialWeight < 0.0 then
      Err(IllegalArgument(WEIGHTS_NON_NEGATIVE))
    else
      Ok(PSOContext(maxIterations, inertiaWeight, cognitiveWeight, socialWeight, variationThreshold, variationPersitence))
  }

  /** The four-argument constructor delegates with variationThreshold 0.0 and variationPersitence
      Long.MAX_VALUE, so it accepts and rejects exactly what the six-argument one does. */
  function NewPSOContextDefaults(maxIterations: int, inertiaWeight: real, cognitiveWeight: real,
                                 socialWeight: real): (r: Result<PSOContext>)
    ensures r.Ok? <==> (maxIterations > 0 && inertiaWeight >= 0.0 && cognitiveWeight >= 0.0 && socialWeight >= 0.0)
    ensures r.Ok? ==> r.value.variationThreshold == 0.0 && r.value.variationPersitence == LONG_MAX_VALUE
    ensures r.Ok? ==> r.value.maxIterations == maxIterations && r.value.inertiaWeight == inertiaWeight
                      && r.value.cognitiveWeight == cognitiveWeight && r.value.socialWeight == socialWeight
  {
    NewPSOContext(maxIterations, inertiaWeight, cognitiveWeight, socialWeight, 0.0, LONG_MAX_VALUE)
  }
}
