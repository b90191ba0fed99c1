/** The quadratic objective of the annealing tests (QuadraticFunction.java): one real coordinate
    drawn in [-10, 10), scored (v - 2)^2. `rnd.nextDouble()` is the `random` argument, a draw in
    [0, 1). */
module Quadratics {

  /** `compute(value)`: the squared distance to the minimiser 2, never negative. */
  function QuadraticOf(value: real): (r: real)
    ensures r >= 0.0
  {
    (value - 2.0) * (value - 2.0)
  }

  /** 2 is a minimiser, scoring 0; at distance at least 1 from it the score is at least that
      distance. */
  lemma QuadraticMinimum(value: real)
    ensures QuadraticOf(2.0) == 0.0
    ensures QuadraticOf(value) >= QuadraticOf(2.0)
    ensures value >= 3.0 ==> QuadraticOf(value) >= value - 2.0
    ensures value <= 1.0 ==> QuadraticOf(value) >= 2.0 - value
  {
    var d := value - 2.0;
    assert QuadraticOf(value) == d * d;
    if d >= 1.0 {
      assert d * d >= 1.0 * d;
    } else if d <= -1.0 {
      assert d * d >= -1.0 * d;
    }
  }

  class QuadraticFunction {
    var x: real

    /** `-10.0 <= x && x <= 10`. */
    predicate IsValid()
      reads this
    {
      -10.0 <= x <= 10.0
    }

    /** `compute()`. */
    function Compute(): real
      reads this
    {
      QuadraticOf(x)
    }

    /** The field initialiser: x is drawn in [-10, 10), so a new function is valid. */
    constructor(random: real)
      requires 0.0 <= random < 1.0
      ensures x == random * 20.0 - 10.0 && IsValid()
    {
      x := random * 20.0 - 10.0;
    }

    /** `reconfigure`: a fresh draw in [-10, 10), always valid. */
    method Reconfigure(random: real)
      requires 0.0 <= random < 1.0
      modifies this
      ensures x == random * 20.0 - 10.0 && IsValid()
    {
      x := random * 20.0 - 10.0;
    }

    /** `assign(f)`: takes x from another quadratic function; anything else changes nothing. */
    method Assign(f: object)
      modifies this
      ensures f is QuadraticFunction ==> x == old((f as QuadraticFunction).x)
      ensures !(f is QuadraticFunction) ==> x == old(x)
    {
      if f is QuadraticFunction {
        x := (f as QuadraticFunction).x;
      }
    }

    /** `copy`: a fresh quadratic function (drawing its own x) whose x is then set to this
        one's. */
    method Copy(random: real) returns (c: QuadraticFunction)
      requires 0.0 <= random < 1.0
      ensures fresh(c) && c.x == x && c.Compute() == Compute()
    {
      c := new QuadraticFunction(random);
      c.x := x;
    }
  }
}
