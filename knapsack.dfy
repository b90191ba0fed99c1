/** The 0/1 knapsack objective used by the annealing tests (KnapsackFunction.java): a selection x
    of items, each with a value and a weight, scored by its total value minus a linear penalty
    on the weight at or above the restriction. Doubles are modelled as reals, the Java lists as
    sequences the methods reassign, and the random numbers `reconfigure` draws as its argument. */
module Knapsacks {
  import opened Wrappers

  const DIMENSION_POSITIVE := "Dimention of values and weight must be positive"
  const DIMENSION_EQUAL := "Dimention of values and weight must be equals"

  /** The sum of a[i] * x[i] over the first n items, accumulated in increasing i. */
  function Weighted(a: seq<real>, x: seq<int>, n: nat): real
    requires n <= |a| && n <= |x|
  {
    if n == 0 then 0.0 else Weighted(a, x, n - 1) + a[n - 1] * (x[n - 1] as real)
  }

  /** The penalty `compute` subtracts: penalty * (weight - restriction) once the weight reaches
      the restriction, nothing below it. */
  function Penalty(penalty: real, restriction: real, weight: real): real
  {
    if weight >= restriction then penalty * (weight - restriction) else 0.0
  }

  /** `compute(value)`: the total value of the selection minus the penalty on its total weight.
      A selection longer than the value or weight list runs off its end. */
  function Evaluate(v: seq<real>, w: seq<real>, penalty: real, restriction: real, x: seq<int>): (r: Result<real>)
    ensures r.Err? <==> |x| > |v| || |x| > |w|
    ensures r.Err? ==> r.error == IndexOutOfBounds
    ensures r.Ok? && Weighted(w, x, |x|) < restriction ==> r.value == Weighted(v, x, |x|)
    ensures r.Ok? && penalty >= 0.0 ==> r.value <= Weighted(v, x, |x|)
  {
    if |x| > |v| || |x| > |w| then Err(IndexOutOfBounds)
    else
      var weight := Weighted(w, x, |x|);
      PenaltyNonNegative(penalty, restriction, weight);
      Ok(Weighted(v, x, |x|) - Penalty(penalty, restriction, weight))
  }

  /** A non-negative penalty rate never adds to the score. */
  lemma PenaltyNonNegative(penalty: real, restriction: real, weight: real)
    ensures penalty >= 0.0 ==> Penalty(penalty, restriction, weight) >= 0.0
    ensures weight < restriction ==> Penalty(penalty, restriction, weight) == 0.0
  {
    if penalty >= 0.0 && weight >= restriction {
      assert penalty * (weight - restriction) >= 0.0 * (weight - restriction);
    }
  }

  /** The selection of nothing weighs and is worth nothing. */
  lemma {:induction false} WeightedZeros(a: seq<real>, x: seq<int>, n: nat)
    requires n <= |a| && n <= |x| && forall i :: 0 <= i < n ==> x[i] == 0
    ensures Weighted(a, x, n) == 0.0
  {
    if n > 0 {
      WeightedZeros(a, x, n - 1);
    }
  }

  /** Flipping the selection of item k changes the total by exactly a[k], up or down. */
  lemma {:induction false} WeightedFlip(a: seq<real>, x: seq<int>, n: nat, k: nat)
    requires n <= |a| && n <= |x| && k < n && (x[k] == 0 || x[k] == 1)
    ensures Weighted(a, x[k := 1 - x[k]], n) == Weighted(a, x, n) + (if x[k] == 0 then a[k] else -a[k])
  {
    if n - 1 > k {
      WeightedFlip(a, x, n - 1, k);
    } else {
      assert x[k := 1 - x[k]][..n - 1] == x[..n - 1];
      WeightedPrefix(a, x[k := 1 - x[k]], x, n - 1);
    }
  }

  /** The total over n items depends only on the first n entries of the selection. */
  lemma {:induction false} WeightedPrefix(a: seq<real>, x: seq<int>, y: seq<int>, n: nat)
    requires n <= |a| && n <= |x| && n <= |y| && x[..n] == y[..n]
    ensures Weighted(a, x, n) == Weighted(a, y, n)
  {
    if n > 0 {
      assert x[..n - 1] == x[..n][..n - 1] && y[..n - 1] == y[..n][..n - 1];
      assert x[n - 1] == x[..n][n - 1] == y[..n][n - 1] == y[n - 1];
      WeightedPrefix(a, x, y, n - 1);
    }
  }

  /** The two evaluations the tests check, on values [20, 15, 10], weights [5, 8, 3], penalty 100
      and restriction 10: items 0 and 2 weigh 8 and are worth 30; items 0 and 1 weigh 13 and
      score 35 - 100 * 3 = -265. */
  lemma EvaluateExamples()
    ensures Evaluate([20.0, 15.0, 10.0], [5.0, 8.0, 3.0], 100.0, 10.0, [1, 0, 1]) == Ok(30.0)
    ensures Evaluate([20.0, 15.0, 10.0], [5.0, 8.0, 3.0], 100.0, 10.0, [1, 1, 0]) == Ok(-265.0)
  {
    var v, w := [20.0, 15.0, 10.0], [5.0, 8.0, 3.0];
    var x, y := [1, 0, 1], [1, 1, 0];
    assert Weighted(v, x, 1) == 20.0 && Weighted(v, x, 2) == 20.0 && Weighted(v, x, 3) == 30.0;
    assert Weighted(w, x, 1) == 5.0 && Weighted(w, x, 2) == 5.0 && Weighted(w, x, 3) == 8.0;
    assert Weighted(v, y, 1) == 20.0 && Weighted(v, y, 2) == 35.0 && Weighted(v, y, 3) == 35.0;
    assert Weighted(w, y, 1) == 5.0 && Weighted(w, y, 2) == 13.0 && Weighted(w, y, 3) == 13.0;
  }

  /** `reconfigure` applied to the drawn indices in order: each one flips its entry via 1 - x.
      Every entry ends up either kept or complemented, and an entry never drawn is kept. */
  function Flipped(x: seq<int>, picks: seq<int>): (r: seq<int>)
    requires forall i :: 0 <= i < |picks| ==> 0 <= picks[i] < |x|
    ensures |r| == |x|
    ensures forall j :: 0 <= j < |x| ==> r[j] == x[j] || r[j] == 1 - x[j]
    ensures forall j :: 0 <= j < |x| && j !in picks ==> r[j] == x[j]
    decreases |picks|
  {
    if |picks| == 0 then x
    else
      var y := Flipped(x, picks[..|picks| - 1]);
      var k := picks[|picks| - 1];
      y[k := 1 - y[k]]
  }

  /** After the flips, each entry is the original one when it was drawn an even number of times
      and its complement otherwise. */
  lemma FlippedParity(x: seq<int>, picks: seq<int>)
    requires forall i :: 0 <= i < |picks| ==> 0 <= picks[i] < |x|
    ensures forall j :: 0 <= j < |x| ==>
      Flipped(x, picks)[j] == if multiset(picks)[j] % 2 == 0 then x[j] else 1 - x[j]
  {
    forall j | 0 <= j < |x|
      ensures Flipped(x, picks)[j] == if multiset(picks)[j] % 2 == 0 then x[j] else 1 - x[j]
    {
      FlippedAt(x, picks, j);
    }
  }

  /** FlippedParity for one entry, by induction on the draws. */
  lemma {:induction false} FlippedAt(x: seq<int>, picks: seq<int>, j: int)
    requires forall i :: 0 <= i < |picks| ==> 0 <= picks[i] < |x|
    requires 0 <= j < |x|
    ensures Flipped(x, picks)[j] == if multiset(picks)[j] % 2 == 0 then x[j] else 1 - x[j]
    decreases |picks|
  {
    if |picks| > 0 {
      var init := picks[..|picks| - 1];
      var k := picks[|picks| - 1];
      FlippedAt(x, init, j);
      DrawCount(picks, j);
      var y := Flipped(x, init);
      assert Flipped(x, picks)[j] == if j == k then 1 - y[j] else y[j];
    }
  }

  /** The last draw adds one to the count of its own index and leaves every other count alone. */
  lemma DrawCount(picks: seq<int>, j: int)
    requires |picks| > 0
    ensures multiset(picks)[j] == multiset(picks[..|picks| - 1])[j] + (if j == picks[|picks| - 1] then 1 else 0)
  {
    var init, k := picks[..|picks| - 1], picks[|picks| - 1];
    assert picks == init + [k];
    assert multiset(init + [k]) == multiset(init) + multiset{k};
  }

  /** A 0/1 selection stays a 0/1 selection under any flips. */
  lemma FlippedBinary(x: seq<int>, picks: seq<int>)
    requires forall i :: 0 <= i < |picks| ==> 0 <= picks[i] < |x|
    requires forall j :: 0 <= j < |x| ==> x[j] == 0 || x[j] == 1
    ensures forall j :: 0 <= j < |x| ==> Flipped(x, picks)[j] == 0 || Flipped(x, picks)[j] == 1
  {
    FlippedParity(x, picks);
  }

  class KnapsackFunction {
    const dimension: nat
    const penalty: real
    const restriction: real
    var x: seq<int>
    var v: seq<real>
    var w: seq<real>

    /** The selection, the values and the weights all have `dimension` entries. */
    ghost predicate Valid()
      reads this
    {
      dimension > 0 && |x| == dimension && |v| == dimension && |w| == dimension
    }

    /** The constructor once its checks have passed: copies of the values and weights, and the
        selection of nothing (`nextInt(1)` is always 0). */
    constructor Make(v: seq<real>, w: seq<real>, penalty: real, restriction: real)
      requires |v| > 0 && |v| == |w|
      ensures Valid() && this.v == v && this.w == w && this.penalty == penalty && this.restriction == restriction
      ensures forall i :: 0 <= i < dimension ==> x[i] == 0
    {
      dimension := |v|;
      this.penalty := penalty;
      this.restriction := restriction;
      this.v := v;
      this.w := w;
      new;
      x := [];
      for i := 0 to |v|
        invariant this.v == v && this.w == w
        invariant |x| == i && forall j :: 0 <= j < i ==> x[j] == 0
      {
        x := x + [0];
      }
    }

    /** `compute(value)`: one pass accumulating the value and the weight of the selection. */
    method ComputeOf(value: seq<int>) returns (r: Result<real>)
      ensures r == Evaluate(v, w, penalty, restriction, value)
    {
      var sumXV := 0.0;
      var sumPenalty := 0.0;
      for i := 0 to |value|
        invariant i <= |v| && i <= |w|
        invariant sumXV == Weighted(v, value, i) && sumPenalty == Weighted(w, value, i)
      {
        if i >= |v| || i >= |w| {
          return Err(IndexOutOfBounds);
        }
        sumXV := sumXV + v[i] * (value[i] as real);
        sumPenalty := sumPenalty + w[i] * (value[i] as real);
      }
      sumPenalty := if sumPenalty >= restriction then penalty * (sumPenalty - restriction) else 0.0;
      r := Ok(sumXV - sumPenalty);
      assert sumPenalty == Penalty(penalty, restriction, Weighted(w, value, |value|));
      assert r == Ok(Weighted(v, value, |value|) - Penalty(penalty, restriction, Weighted(w, value, |value|)));
    }

    /** `compute()`: the score of the current selection. */
    method Compute() returns (r: real)
      requires Valid()
      ensures Evaluate(v, w, penalty, restriction, x) == Ok(r)
    {
      var result := ComputeOf(x);
      r := result.value;
    }

    /** `isValid`: the selection weighs strictly less than the restriction. */
    method IsValid() returns (b: bool)
      requires Valid()
      ensures b <==> Weighted(w, x, dimension) < restriction
    {
      var sumPenalty := 0.0;
      for i := 0 to dimension
        invariant sumPenalty == Weighted(w, x, i)
      {
        sumPenalty := sumPenalty + w[i] * (x[i] as real);
      }
      b := sumPenalty < restriction;
    }

    /** `reconfigure`: the random count (below the dimension) and the random indices are the
        drawn `picks`; each drawn entry is flipped in turn. */
    method Reconfigure(picks: seq<int>)
      requires Valid() && |picks| < dimension && forall i :: 0 <= i < |picks| ==> 0 <= picks[i] < dimension
      modifies this
      ensures Valid() && x == Flipped(old(x), picks) && v == old(v) && w == old(w)
    {
      for i := 0 to |picks|
        invariant v == old(v) && w == old(w)
        invariant |x| == dimension && x == Flipped(old(x), picks[..i])
      {
        assert picks[..i + 1][..i] == picks[..i];
        x := x[picks[i] := 1 - x[picks[i]]];
      }
      assert picks[..|picks|] == picks;
    }

    /** `assign(f)`: copies selection, values and weights entry by entry from another knapsack
        of the same dimension; anything else leaves this one unchanged. */
    method Assign(f: object)
      requires Valid() && (f is KnapsackFunction ==> (f as KnapsackFunction).Valid())
      modifies this
      ensures Valid()
      ensures f is KnapsackFunction && (f as KnapsackFunction).dimension == dimension ==>
        x == old((f as KnapsackFunction).x) && v == old((f as KnapsackFunction).v) && w == old((f as KnapsackFunction).w)
      ensures !(f is KnapsackFunction && (f as KnapsackFunction).dimension == dimension) ==>
        x == old(x) && v == old(v) && w == old(w)
    {
      if f is KnapsackFunction {
        var other := f as KnapsackFunction;
        if other.dimension == dimension {
          ghost var ox, ov, ow := other.x, other.v, other.w;
          for i := 0 to dimension
            invariant |x| == dimension && |v| == dimension && |w| == dimension
            invariant other.x[i..] == ox[i..] && other.v[i..] == ov[i..] && other.w[i..] == ow[i..]
            invariant x[..i] == ox[..i] && v[..i] == ov[..i] && w[..i] == ow[..i]
          {
            x := x[i := other.x[i]];
            v := v[i := other.v[i]];
            w := w[i := other.w[i]];
          }
        }
      }
    }

    /** `copy`: a fresh knapsack over the same values, weights, penalty and restriction, holding
        the same selection. */
    method Copy() returns (c: KnapsackFunction)
      requires Valid()
      ensures fresh(c) && c.Valid()
      ensures c.x == x && c.v == v && c.w == w && c.penalty == penalty && c.restriction == restriction
    {
      c := new KnapsackFunction.Make(v, w, penalty, restriction);
      c.x := [];
      for i := 0 to dimension
        invariant c.x == x[..i] && c.v == v && c.w == w
      {
        c.x := c.x + [x[i]];
      }
    }
  }

  /** `KnapsackFunction(v, w, penalty, restrition)`: empty lists are rejected first, then lists
      of different lengths. */
  method NewKnapsack(v: seq<real>, w: seq<real>, penalty: real, restriction: real) returns (r: Result<KnapsackFunction>)
    ensures r.Err? <==> |v| == 0 || |w| == 0 || |v| != |w|
    ensures r.Err? ==> r.error == IllegalArgument(if |v| == 0 || |w| == 0 then DIMENSION_POSITIVE else DIMENSION_EQUAL)
    ensures r.Ok? ==> fresh(r.value) && r.value.Valid() && r.value.v == v && r.value.w == w
    ensures r.Ok? ==> r.value.penalty == penalty && r.value.restriction == restriction
    ensures r.Ok? ==> forall i :: 0 <= i < |v| ==> r.value.x[i] == 0
  {
    if |v| == 0 || |w| == 0 {
      return Err(IllegalArgument(DIMENSION_POSITIVE));
    }
    if |v| != |w| {
      return Err(IllegalArgument(DIMENSION_EQUAL));
    }
    var k := new KnapsackFunction.Make(v, w, penalty, restriction);
    r := Ok(k);
  }
}
