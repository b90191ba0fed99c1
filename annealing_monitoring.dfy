/** Progress events of a simulated-annealing run and the listener that delivers them
    (AnnealingState.java, AnnealingListener.java). The listener is the same queue machine as the
    generic channel, specialised to `AnnealingState`. */
module AnnealingMonitoring {
  import opened StateChannel

  /** Which diagnostic a progress event carries (the free-text message of the Java record). */
  datatype Note =
    | StartCooling
    | InvalidSeed
    | StartValue
    | AcceptedConfiguration
    | StopByVariation
    | StopByTime
    | InvalidBest
    | FinishValue

  /** One progress snapshot. The Boltzmann probability and the context reference of the Java
      record are not carried. */
  datatype AnnealingState = AnnealingState(
    temperature: real,
    initialEnergy: real,
    finalEnergy: real,
    delta: real,
    bestValue: real,
    currentStep: int,
    accepted: bool,
    note: Note)

  /** AnnealingListener.java duplicates StateChangeListener.java line for line. */
  type AnnealingListener = StateChangeListener<AnnealingState>

  /** Any interleaving of producer posts (`true` in the schedule) and worker steps (`false`)
      before `finish`, followed by `finish` and the drain: the handler receives every posted event
      exactly once and in posting order, and nothing at all when it is absent. No worker step
      before `finish` terminates, and an idle step on an empty queue changes nothing. */
  method MonitorRun(events: seq<AnnealingState>, schedule: seq<bool>, hasHandler: bool)
    returns (handled: seq<AnnealingState>)
    ensures handled == (if hasHandler then events else [])
  {
    var listener: AnnealingListener := new StateChangeListener<AnnealingState>(hasHandler);
    var next := 0;
    for k := 0 to |schedule|
      invariant listener.Valid() && listener.hasHandler == hasHandler && !listener.finished
      invariant 0 <= next <= |events| && listener.posted == events[..next]
    {
      if schedule[k] {
        if next < |events| {
          listener.OnStateChange(events[next]);
          assert events[..next + 1] == events[..next] + [events[next]];
          next := next + 1;
        }
      } else {
        var terminated := listener.Step();
        assert !terminated;
      }
    }
    while next < |events|
      invariant listener.Valid() && listener.hasHandler == hasHandler && !listener.finished
      invariant 0 <= next <= |events| && listener.posted == events[..next]
    {
      listener.OnStateChange(events[next]);
      assert events[..next + 1] == events[..next] + [events[next]];
      next := next + 1;
    }
    assert events[..next] == events;
    listener.Finish();
    listener.Run();
    handled := listener.handled;
  }
}
