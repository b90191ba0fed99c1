/** The plateau objective of the annealing tests (PlateauFunction.java): one real coordinate
    drawn in [-10, 10), scored 0 on the plateau |v| < 1 and |v| - 1 off it. `Math.random()` is the
    `random` argument, a draw in [0, 1). */
module Plateaus {

  function Abs(v: real): (r: real)
    ensures r >= 0.0 && (r == v || r == -v)
  {
    if v < 0.0 then -v else v
  }

  /** `compute(value)`: zero exactly on [-1, 1] (at |v| = 1 the second branch also gives 0),
      never negative, and the same for v and -v. */
  function PlateauOf(value: real): (r: real)
    ensures r >= 0.0
    ensures r == 0.0 <==> -1.0 <= value <= 1.0
    ensures r + 1.0 == Abs(value) || (r == 0.0 && Abs(value) < 1.0)
  {
    if Abs(value) < 1.0 then 0.0 else Abs(value) - 1.0
  }

  /** The plateau is symmetric, and on the valid domain [-10, 10] it is at most 9, reached
      exactly at the two ends. */
  lemma PlateauShape(value: real)
    ensures PlateauOf(-value) == PlateauOf(value)
    ensures -10.0 <= value <= 10.0 ==> PlateauOf(value) <= 9.0
    ensures -10.0 <= value <= 10.0 ==> (PlateauOf(value) == 9.0 <==> Abs(value) == 10.0)
  {
    assert Abs(-value) == Abs(value);
  }

  class PlateauFunction {
    var x: real

    /** `-10.0 <= x && x <= 10`. */
    predicate IsValid()
      reads this
    {
      -10.0 <= x <= 10.0
    }

    /** `compute()`. */
    function Compute(): real
      reads this
    {
      PlateauOf(x)
    }

    /** The field initialiser: x is drawn in [-10, 10), so a new function is valid and scores
        at most 9. */
    constructor(random: real)
      requires 0.0 <= random < 1.0
      ensures x == random * 20.0 - 10.0 && IsValid() && Compute() <= 9.0
    {
      x := random * 20.0 - 10.0;
      PlateauShape(random * 20.0 - 10.0);
    }

    /** `reconfigure`: a fresh draw in [-10, 10), always valid. */
    method Reconfigure(random: real)
      requires 0.0 <= random < 1.0
      modifies this
      ensures x == random * 20.0 - 10.0 && IsValid() && Compute() <= 9.0
    {
      x := random * 20.0 - 10.0;
      PlateauShape(x);
    }

    /** `assign(f)`: takes x from another plateau function; anything else changes nothing. */
    method Assign(f: object)
      modifies this
      ensures f is PlateauFunction ==> x == old((f as PlateauFunction).x)
      ensures !(f is PlateauFunction) ==> x == old(x)
    {
      if f is PlateauFunction {
        x := (f as PlateauFunction).x;
      }
    }

    /** `copy`: a fresh plateau function (drawing its own x) whose x is then set to this one's. */
    method Copy(random: real) returns (c: PlateauFunction)
      requires 0.0 <= random < 1.0
      ensures fresh(c) && c.x == x && c.Compute() == Compute()
    {
      c := new PlateauFunction(random);
      c.x := x;
    }
  }
}
