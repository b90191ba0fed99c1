/** The sampling objective of the annealing tests (SampleFunction.java): a fixed list of random
    reals and an index into it; the score is the entry at the index, and reconfiguring draws a
    new index. The random draws are arguments. */
module Samples {
  import opened Wrappers

  const SIZE_NOT_POSITIVE := "Dimention of values must be positive"
  const DEFAULT_BOUND := 20.0

  /** The upper bound the constructor draws below: a bound that is not positive becomes 20. */
  function BoundOf(bound: real): (r: real)
    ensures r > 0.0
    ensures bound > 0.0 ==> r == bound
  {
    if bound <= 0.0 then DEFAULT_BOUND else bound
  }

  /** Draws acceptable to the constructor: `size` of them, each `nextDouble(bound)`. */
  predicate Draws(values: seq<real>, size: int, bound: real)
  {
    |values| == size && forall i :: 0 <= i < |values| ==> 0.0 <= values[i] < BoundOf(bound)
  }

  class SampleFunction {
    const size: nat
    /** The field is never assigned: the constructor's parameter of the same name shadows it,
        so `copy` passes 0.0, which the constructor then replaces by 20. */
    const bound: real
    var x: seq<real>
    var index: int

    /** `size` entries, a positive size, and the index inside the list. */
    ghost predicate Valid()
      reads this
    {
      size > 0 && |x| == size && 0 <= index < size && bound == 0.0
    }

    /** `compute()`: the entry at the index. */
    function Compute(): real
      reads this
      requires Valid()
    {
      x[index]
    }

    /** `isValid`: 0 < index < size; index 0, which the draws produce, counts as invalid. */
    predicate IsValid()
      reads this
    {
      0 < index < |x|
    }

    /** The constructor once the size check has passed: the entries are the draws and the
        index is the draw `pick`, in [0, size). */
    constructor Make(size: nat, bound: real, draws: seq<real>, pick: int)
      requires size > 0 && Draws(draws, size, bound) && 0 <= pick < size
      ensures Valid() && x == draws && index == pick
      ensures forall i :: 0 <= i < size ==> 0.0 <= x[i] < BoundOf(bound)
    {
      this.size := size;
      this.bound := 0.0;
      new;
      x := [];
      for i := 0 to size
        invariant x == draws[..i]
      {
        x := x + [draws[i]];
      }
      index := pick;
    }

    /** `reconfigure`: a new index `nextInt(size)`; the entries do not change. */
    method Reconfigure(pick: int)
      requires Valid() && 0 <= pick < |x|
      modifies this
      ensures Valid() && index == pick && x == old(x)
      ensures IsValid() <==> pick != 0
    {
      index := pick;
    }

    /** `assign(f)`: copies every entry and the index from another sample function of the same
        size; anything else leaves this one unchanged. */
    method Assign(f: object)
      requires Valid() && (f is SampleFunction ==> (f as SampleFunction).Valid())
      modifies this
      ensures Valid()
      ensures f is SampleFunction && (f as SampleFunction).size == size ==>
        x == old((f as SampleFunction).x) && index == old((f as SampleFunction).index)
      ensures !(f is SampleFunction && (f as SampleFunction).size == size) ==> x == old(x) && index == old(index)
    {
      if f is SampleFunction {
        var other := f as SampleFunction;
        if other.size == size {
          ghost var ox := other.x;
          for i := 0 to size
            invariant |x| == size && 0 <= index < size
            invariant other.x[i..] == ox[i..] && x[..i] == ox[..i] && other.index == old(other.index)
          {
            x := x[i := other.x[i]];
          }
          index := other.index;
        }
      }
    }

    /** `copy`: a new sample function of the same size built with the field `bound` (0.0, so its
        own entries are drawn below 20), which then assigns from this one: the same entries and
        index, hence the same score and validity. */
    method Copy(draws: seq<real>, pick: int) returns (c: SampleFunction)
      requires Valid() && Draws(draws, size, bound) && 0 <= pick < size
      ensures fresh(c) && c.Valid() && c.size == size && c.x == x && c.index == index
      ensures c.Compute() == Compute() && (c.IsValid() <==> IsValid())
    {
      c := new SampleFunction.Make(size, bound, draws, pick);
      c.Assign(this);
    }
  }

  /** `SampleFunction(size, bound)`: a size that is not positive is rejected. */
  method NewSample(size: int, bound: real, draws: seq<real>, pick: int) returns (r: Result<SampleFunction>)
    requires size > 0 ==> Draws(draws, size, bound) && 0 <= pick < size
    ensures r.Err? <==> size <= 0
    ensures r.Err? ==> r.error == IllegalArgument(SIZE_NOT_POSITIVE)
    ensures r.Ok? ==> fresh(r.value) && r.value.Valid() && r.value.x == draws && r.value.index == pick
  {
    if size <= 0 {
      return Err(IllegalArgument(SIZE_NOT_POSITIVE));
    }
    var s := new SampleFunction.Make(size, bound, draws, pick);
    r := Ok(s);
  }
}
