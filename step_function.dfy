/** The step objective of the annealing tests (StepFunction.java): one real coordinate drawn in
    [-5, 5), scored 1 below 1, 0 between 1 and 2 and -1 above 2. `Math.random()` is the `random`
    argument, a draw in [0, 1). */
module Steps {

  /** `compute(value)`. */
  function StepOf(value: real): (r: real)
    ensures r == 1.0 <==> value < 1.0
    ensures r == 0.0 <==> 1.0 <= value <= 2.0
    ensures r == -1.0 <==> value > 2.0
  {
    if value < 1.0 then 1.0 else if 1.0 <= value && value <= 2.0 then 0.0 else -1.0
  }

  /** The step only goes down: a larger argument never scores more, and the three levels are
      the only values. */
  lemma StepNonIncreasing(a: real, b: real)
    requires a <= b
    ensures StepOf(b) <= StepOf(a)
    ensures StepOf(a) in {-1.0, 0.0, 1.0}
  {
    if StepOf(a) == 0.0 {
      assert 1.0 <= a && 1.0 <= b;
    }
  }

  class StepFunction {
    var x: real

    /** `-5.0 <= x && x <= 5`. */
    predicate IsValid()
      reads this
    {
      -5.0 <= x <= 5.0
    }

    /** `compute()`. */
    function Compute(): real
      reads this
    {
      StepOf(x)
    }

    /** The field initialiser: x is drawn in [-5, 5), so a new function is valid. */
    constructor(random: real)
      requires 0.0 <= random < 1.0
      ensures x == random * 10.0 - 5.0 && IsValid()
    {
      x := random * 10.0 - 5.0;
    }

    /** `reconfigure`: a fresh draw in [-5, 5), always valid. */
    method Reconfigure(random: real)
      requires 0.0 <= random < 1.0
      modifies this
      ensures x == random * 10.0 - 5.0 && IsValid()
    {
      x := random * 10.0 - 5.0;
    }

    /** `assign(f)`: takes x from another step function; anything else changes nothing. */
    method Assign(f: object)
      modifies this
      ensures f is StepFunction ==> x == old((f as StepFunction).x)
      ensures !(f is StepFunction) ==> x == old(x)
    {
      if f is StepFunction {
        x := (f as StepFunction).x;
      }
    }

    /** `copy`: a fresh step function (drawing its own x) whose x is then set to this one's. */
    method Copy(random: real) returns (c: StepFunction)
      requires 0.0 <= random < 1.0
      ensures fresh(c) && c.x == x && c.Compute() == Compute()
    {
      c := new StepFunction(random);
      c.x := x;
    }
  }
}
