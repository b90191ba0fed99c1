/** The optimisation direction of a run (ProblemType.java). */
module ProblemTypes {

  /** `MINIMIZE` carries the sign +1.0 and `MAXIMIZE` the sign -1.0: multiplying an objective
      value by the sign turns every problem into a minimisation. */
  datatype ProblemType = MINIMIZE | MAXIMIZE {

    /** The sign stored in the enum constant. */
    function ValueOf(): (r: real)
      ensures r * r == 1.0
      ensures r > 0.0 <==> this == MINIMIZE
    {
      match this
      case MINIMIZE => 1.0
      case MAXIMIZE => -1.0
    }

    /** The product `getValue() * x`, written as the identity or a negation so that the engine's
        reasoning stays linear (multiplying by +1.0 or -1.0 is exact). */
    function Signed(x: real): real
    {
      match this
      case MINIMIZE => x
      case MAXIMIZE => -x
    }
  }

  /** `Signed` is the product with the sign, and applying it twice gives back the raw objective
      value; the annealing engine relies on this to turn a minimising energy back into the
      objective value it stores. */
  lemma SignInvolution(p: ProblemType, x: real)
    ensures p.Signed(x) == p.ValueOf() * x
    ensures p.ValueOf() * (p.ValueOf() * x) == x
    ensures p.Signed(p.Signed(x)) == x
  {
    calc {
      p.ValueOf() * (p.ValueOf() * x);
      (p.ValueOf() * p.ValueOf()) * x;
      x;
    }
  }
}
