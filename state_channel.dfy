/** The progress channel shared by both optimisers (StateChangeListener.java): producers append
    events to a queue, `finish` raises a one-way flag, and a single worker pops the oldest event
    and hands it to the handler, returning once the queue is empty and the flag is set.
    The worker thread is modelled by its loop body `Step`; locking is not modelled, each call is
    one atomic step of one sequential interleaving. */
module StateChannel {

  class StateChangeListener<E> {
    /** The pending events, oldest first (`states`). */
    var states: seq<E>
    /** `finish[0]`. */
    var finished: bool
    /** Whether a handler was supplied (`handler != null`). */
    const hasHandler: bool
    /** The arguments of the handler calls made so far, in call order. */
    var handled: seq<E>
    /** Every event ever posted, and every event the worker has removed. */
    ghost var posted: seq<E>
    ghost var taken: seq<E>

    /** Nothing is lost or reordered: what was removed followed by what is pending is exactly what
        was posted, and the handler saw every removed event, or none when it is absent. */
    ghost predicate Valid()
      reads this
    {
      && taken + states == posted
      && handled == (if hasHandler then taken else [])
    }

    constructor (hasHandler: bool)
      ensures Valid()
      ensures this.hasHandler == hasHandler
      ensures states == [] && !finished && handled == [] && posted == [] && taken == []
    {
      this.hasHandler := hasHandler;
      states := [];
      finished := false;
      handled := [];
      posted := [];
      taken := [];
    }

    /** `onStateChange`: append the event at the tail; earlier entries, the flag and the handler
        log are untouched. */
    method OnStateChange(e: E)
      requires Valid()
      modifies this
      ensures Valid()
      ensures states == old(states) + [e] && posted == old(posted) + [e]
      ensures finished == old(finished) && handled == old(handled) && taken == old(taken)
    {
      states := states + [e];
      posted := posted + [e];
    }

    /** `finish`: raise the flag; nothing else changes and nothing ever lowers it. */
    method Finish()
      requires Valid()
      modifies this
      ensures Valid() && finished
      ensures states == old(states) && handled == old(handled) && posted == old(posted) && taken == old(taken)
    {
      finished := true;
    }

    /** One iteration of the worker loop in `run`. It reports termination exactly when the queue
        is empty and the flag is set; otherwise it removes the head, if any, and passes it to the
        handler when there is one. On an empty, unfinished queue it changes nothing. */
    method Step() returns (terminated: bool)
      requires Valid()
      modifies this
      ensures Valid()
      ensures terminated <==> |old(states)| == 0 && old(finished)
      ensures finished == old(finished) && posted == old(posted)
      ensures |old(states)| == 0 ==> states == old(states) && handled == old(handled) && taken == old(taken)
      ensures |old(states)| > 0 ==>
                && states == old(states)[1..]
                && taken == old(taken) + [old(states)[0]]
                && handled == old(handled) + (if hasHandler then [old(states)[0]] else [])
    {
      if |states| == 0 && finished {
        return true;
      }
      terminated := false;
      if |states| > 0 {
        var state := states[0];
        states := states[1..];
        taken := taken + [state];
        assert taken + states == posted by {
          assert old(states) == [state] + states;
        }
        if hasHandler {
          handled := handled + [state];
        }
      }
    }

    /** The worker loop once `finish` has been called: it returns only after delivering every
        pending event, in queue order, so at the end the handler has seen every posted event. */
    method Run()
      requires Valid() && finished
      modifies this
      ensures Valid() && finished
      ensures states == [] && posted == old(posted)
      ensures handled == old(handled) + (if hasHandler then old(states) else [])
      ensures hasHandler ==> handled == posted
    {
      var terminated := false;
      while !terminated
        invariant Valid() && finished && posted == old(posted)
        invariant |states| <= |old(states)| && states == old(states)[|old(states)| - |states|..]
        invariant handled == old(handled) + (if hasHandler then old(states)[..|old(states)| - |states|] else [])
        invariant terminated ==> states == []
        decreases |states| + (if terminated then 0 else 1)
      {
        ghost var before := states;
        terminated := Step();
        if |before| > 0 {
          assert old(states)[..|old(states)| - |states|]
              == old(states)[..|old(states)| - |before|] + [before[0]];
        }
      }
      assert old(states)[..|old(states)|] == old(states);
    }
  }

  /** A producer posts `events` and then calls `finish`, and the worker drains the queue: the
      handler is called once per event, in posting order, or never when it is absent. */
  method Deliver<E>(events: seq<E>, hasHandler: bool) returns (handled: seq<E>)
    ensures handled == (if hasHandler then events else [])
  {
    var listener := new StateChangeListener<E>(hasHandler);
    var i := 0;
    while i < |events|
      invariant 0 <= i <= |events|
      invariant listener.Valid() && listener.hasHandler == hasHandler
      invariant listener.states == events[..i] && listener.handled == []
    {
      listener.OnStateChange(events[i]);
      assert events[..i + 1] == events[..i] + [events[i]];
      i := i + 1;
    }
    assert events[..i] == events;
    listener.Finish();
    listener.Run();
    handled := listener.handled;
  }
}
