/** The sphere objective of the annealing tests (SphereFunction.java): a list of real
    coordinates scored by the sum of their squares. The random draws of the constructor and of
    `reconfigure` are arguments. */
module Spheres {
  import opened Wrappers

  const CAPACITY_NEGATIVE := "Illegal Capacity"
  const BOUND_NOT_POSITIVE := "bound must be positive"

  /** `compute(value)`: the sum of the squares of the entries. */
  function SumOfSquares(x: seq<real>): (r: real)
    ensures r >= 0.0
  {
    if |x| == 0 then 0.0 else SumOfSquares(x[..|x| - 1]) + x[|x| - 1] * x[|x| - 1]
  }

  /** Every coordinate's square is part of the score: no single square exceeds the sum, and a
      list of zeros scores 0. */
  lemma {:induction false} SumOfSquaresCoordinates(x: seq<real>)
    ensures forall i :: 0 <= i < |x| ==> x[i] * x[i] <= SumOfSquares(x)
    ensures (forall i :: 0 <= i < |x| ==> x[i] == 0.0) ==> SumOfSquares(x) == 0.0
  {
    if |x| > 0 {
      var init, last := x[..|x| - 1], x[|x| - 1];
      SumOfSquaresCoordinates(init);
      Square(last);
      forall i | 0 <= i < |x| ensures x[i] * x[i] <= SumOfSquares(x) {
        if i < |x| - 1 {
          assert x[i] == init[i];
        }
      }
      if forall i :: 0 <= i < |x| ==> x[i] == 0.0 {
        assert forall i :: 0 <= i < |init| ==> init[i] == x[i];
        assert last == 0.0;
      }
    }
  }

  /** A square is never negative, and is at most 100 on [-10, 10]. */
  lemma Square(d: real)
    ensures d * d >= 0.0
    ensures -10.0 <= d <= 10.0 ==> d * d <= 100.0
  {
    if 0.0 <= d <= 10.0 {
      assert d * d <= 10.0 * d;
    } else if -10.0 <= d < 0.0 {
      assert d * d <= -10.0 * d;
    }
  }

  /** `isValid` as written: the filter asks for an entry below -10 and above 10 at once, which
      no entry is, so every list passes. */
  function AcceptedAsWritten(x: seq<real>): (b: bool)
    ensures b
  {
    !exists i :: 0 <= i < |x| && -10.0 > x[i] && x[i] > 10.0
  }

  /** The check evidently intended: every entry in the domain [-10, 10]. */
  predicate InDomain(x: seq<real>)
  {
    forall i :: 0 <= i < |x| ==> -10.0 <= x[i] <= 10.0
  }

  /** On the intended domain the score is bounded: at most 100 per coordinate. */
  lemma {:induction false} InDomainBounded(x: seq<real>)
    requires InDomain(x)
    ensures SumOfSquares(x) <= 100.0 * (|x| as real)
  {
    if |x| > 0 {
      var init := x[..|x| - 1];
      assert InDomain(init) by {
        forall i | 0 <= i < |init| ensures -10.0 <= init[i] <= 10.0 {
          assert init[i] == x[i];
        }
      }
      InDomainBounded(init);
      Square(x[|x| - 1]);
    }
  }

  /** The discrepancy: a coordinate of 11, outside the domain, passes the check as written. */
  lemma OutOfDomainAccepted()
    ensures AcceptedAsWritten([11.0]) && !InDomain([11.0])
  {
    assert [11.0][0] == 11.0;
  }

  /** One multiplicative move of `reconfigure`: 1 + r or 1 - r, after the parity of a random
      int. Java's `%` keeps the sign of the dividend, but it is zero exactly when Dafny's is. */
  function Factor(coin: int, scale: real): real
  {
    1.0 + (if coin % 2 == 0 then 1.0 else -1.0) * scale
  }

  /** With the draw in [0, 1) the factor lies in (0, 2). */
  lemma FactorRange(coin: int, scale: real)
    requires 0.0 <= scale < 1.0
    ensures 0.0 < Factor(coin, scale) < 2.0
  {
  }

  /** The entries after scaling entry picks[j] by factors[j], j = 0, 1, ... in turn. */
  function Scaled(x: seq<real>, picks: seq<int>, factors: seq<real>): (r: seq<real>)
    requires |picks| == |factors| && forall j :: 0 <= j < |picks| ==> 0 <= picks[j] < |x|
    ensures |r| == |x|
  {
    if |picks| == 0 then x
    else
      var y := Scaled(x, picks[..|picks| - 1], factors[..|factors| - 1]);
      ScaleAt(y, picks[|picks| - 1], factors[|factors| - 1])
  }

  /** One step of `reconfigure`: entry k multiplied by c, the others kept. */
  function ScaleAt(y: seq<real>, k: int, c: real): (r: seq<real>)
    requires 0 <= k < |y|
    ensures |r| == |y| && forall i :: 0 <= i < |y| && i != k ==> r[i] == y[i]
  {
    y[k := y[k] * c]
  }

  /** Scaling by positive factors keeps the length and the sign of every entry: zeros stay
      zero, positive entries stay positive, negative ones negative. */
  lemma {:induction false} ScaledSigns(x: seq<real>, picks: seq<int>, factors: seq<real>)
    requires |picks| == |factors| && forall j :: 0 <= j < |picks| ==> 0 <= picks[j] < |x|
    requires forall j :: 0 <= j < |factors| ==> factors[j] > 0.0
    ensures forall i :: 0 <= i < |x| ==> (Scaled(x, picks, factors)[i] == 0.0 <==> x[i] == 0.0)
    ensures forall i :: 0 <= i < |x| ==> (Scaled(x, picks, factors)[i] > 0.0 <==> x[i] > 0.0)
  {
    if |picks| > 0 {
      var p, f := picks[..|picks| - 1], factors[..|factors| - 1];
      ScaledSigns(x, p, f);
      var y := Scaled(x, p, f);
      var k, c := picks[|picks| - 1], factors[|factors| - 1];
      assert c > 0.0;
      PositiveFactor(y[k], c);
    }
  }

  /** Multiplying by a positive factor keeps the sign. */
  lemma PositiveFactor(a: real, c: real)
    requires c > 0.0
    ensures a * c == 0.0 <==> a == 0.0
    ensures a * c > 0.0 <==> a > 0.0
  {
    if a > 0.0 {
      assert a * c > 0.0 * c;
    } else if a < 0.0 {
      assert a * c < 0.0 * c;
    }
  }

  class SphereFunction {
    const dimension: nat
    var x: seq<real>

    /** The list holds `dimension` entries. */
    ghost predicate Valid()
      reads this
    {
      |x| == dimension
    }

    /** `compute()`. */
    function Compute(): real
      reads this
    {
      SumOfSquares(x)
    }

    /** `isValid`, as written (see `AcceptedAsWritten`): always true. */
    function IsValid(): (b: bool)
      reads this
      ensures b
    {
      AcceptedAsWritten(x)
    }

    /** The constructor for a non-negative dimension: the entries are the draws
        `nextDouble(20.0)`, each in [0, 20). */
    constructor Make(dimension: nat, draws: seq<real>)
      requires |draws| == dimension && forall i :: 0 <= i < |draws| ==> 0.0 <= draws[i] < 20.0
      ensures Valid() && x == draws
      ensures forall i :: 0 <= i < dimension ==> 0.0 <= x[i] < 20.0
    {
      this.dimension := dimension;
      new;
      x := [];
      for i := 0 to dimension
        invariant x == draws[..i]
      {
        x := x + [draws[i]];
      }
    }

    /** `reconfigure`: the count `nextInt(size)` is |picks|, below the size; each step scales
        the drawn entry by `Factor(coins[j], scales[j])`. An empty list fails at once, as
        `nextInt(0)` does. */
    method Reconfigure(picks: seq<int>, coins: seq<int>, scales: seq<real>) returns (r: Result<()>)
      requires Valid()
      requires |picks| == |coins| == |scales| && (|x| == 0 || |picks| < |x|)
      requires forall j :: 0 <= j < |picks| ==> 0 <= picks[j] < |x|
      requires forall j :: 0 <= j < |scales| ==> 0.0 <= scales[j] < 1.0
      modifies this
      ensures Valid()
      ensures r.Err? <==> |old(x)| == 0
      ensures r.Err? ==> r.error == IllegalArgument(BOUND_NOT_POSITIVE) && x == old(x)
      ensures r.Ok? ==> x == Scaled(old(x), picks, Factors(coins, scales))
      ensures forall i :: 0 <= i < |x| ==> (x[i] == 0.0 <==> old(x)[i] == 0.0) && (x[i] > 0.0 <==> old(x)[i] > 0.0)
    {
      if |x| == 0 {
        return Err(IllegalArgument(BOUND_NOT_POSITIVE));
      }
      var factors := Factors(coins, scales);
      for i := 0 to |picks|
        invariant |x| == dimension
        invariant x == Scaled(old(x), picks[..i], factors[..i])
      {
        ghost var p, f := picks[..i + 1], factors[..i + 1];
        assert p[..i] == picks[..i] && f[..i] == factors[..i];
        x := ScaleAt(x, picks[i], factors[i]);
      }
      assert picks[..|picks|] == picks && factors[..|picks|] == factors;
      FactorsPositive(coins, scales);
      ScaledSigns(old(x), picks, factors);
      r := Ok(());
    }

    /** `assign(f)`: copies every entry from another sphere function of the same dimension;
        anything else leaves this one unchanged. */
    method Assign(f: object)
      requires Valid() && (f is SphereFunction ==> (f as SphereFunction).Valid())
      modifies this
      ensures Valid()
      ensures f is SphereFunction && (f as SphereFunction).dimension == dimension ==> x == old((f as SphereFunction).x)
      ensures !(f is SphereFunction && (f as SphereFunction).dimension == dimension) ==> x == old(x)
    {
      if f is SphereFunction {
        var other := f as SphereFunction;
        if other.dimension == dimension {
          ghost var ox := other.x;
          for i := 0 to dimension
            invariant |x| == dimension
            invariant other.x[i..] == ox[i..] && x[..i] == ox[..i]
          {
            x := x[i := other.x[i]];
          }
        }
      }
    }

    /** `copy`: a new sphere function of the same dimension (drawing its own entries) that then
        assigns from this one, so it holds the same entries and scores the same. */
    method Copy(draws: seq<real>) returns (c: SphereFunction)
      requires Valid()
      requires |draws| == dimension && forall i :: 0 <= i < |draws| ==> 0.0 <= draws[i] < 20.0
      ensures fresh(c) && c.Valid() && c.dimension == dimension && c.x == x && c.Compute() == Compute()
    {
      c := new SphereFunction.Make(dimension, draws);
      c.Assign(this);
    }
  }

  /** The factors of a `reconfigure` pass. */
  function Factors(coins: seq<int>, scales: seq<real>): (r: seq<real>)
    requires |coins| == |scales|
    ensures |r| == |coins|
  {
    seq(|coins|, j requires 0 <= j < |coins| => Factor(coins[j], scales[j]))
  }

  lemma FactorsPositive(coins: seq<int>, scales: seq<real>)
    requires |coins| == |scales| && forall j :: 0 <= j < |scales| ==> 0.0 <= scales[j] < 1.0
    ensures forall j :: 0 <= j < |coins| ==> 0.0 < Factors(coins, scales)[j] < 2.0
  {
    forall j | 0 <= j < |coins| ensures 0.0 < Factors(coins, scales)[j] < 2.0 {
      FactorRange(coins[j], scales[j]);
    }
  }

  /** `SphereFunction(dimention)`: a negative dimension fails when the list is allocated. */
  method NewSphere(dimension: int, draws: seq<real>) returns (r: Result<SphereFunction>)
    requires dimension >= 0 ==> |draws| == dimension && forall i :: 0 <= i < |draws| ==> 0.0 <= draws[i] < 20.0
    ensures r.Err? <==> dimension < 0
    ensures r.Err? ==> r.error == IllegalArgument(CAPACITY_NEGATIVE)
    ensures r.Ok? ==> fresh(r.value) && r.value.Valid() && r.value.dimension == dimension && r.value.x == draws
  {
    if dimension < 0 {
      return Err(IllegalArgument(CAPACITY_NEGATIVE));
    }
    var s := new SphereFunction.Make(dimension, draws);
    r := Ok(s);
  }
}
