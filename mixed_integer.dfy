/** The brute-force knapsack optimum the mixed-integer annealing test compares against
    (MixedIntegerFunctionTest.java): a little-endian binary counter held in a list of 0/1
    entries, incremented in place, and an enumeration of selections from all zeros upwards
    that keeps the best value among those lighter than the restriction. */
module MixedInteger {
  import opened Wrappers
  import opened Knapsacks

  const LENGTH_MISMATCH := "Dimention of values, weight and x's values must be equals"

  /** Every entry is 0 or 1. */
  predicate Binary(x: seq<int>)
  {
    forall i :: 0 <= i < |x| ==> x[i] == 0 || x[i] == 1
  }

  function Pow2(n: nat): (r: nat)
    ensures r >= 1
  {
    if n == 0 then 1 else 2 * Pow2(n - 1)
  }

  /** The number a 0/1 list holds, entry 0 being the least significant bit. */
  function Number(x: seq<int>): nat
  {
    if |x| == 0 then 0 else (if x[0] == 0 then 0 else 1) + 2 * Number(x[1..])
  }

  /** The n-bit little-endian list holding k modulo 2^n. */
  function Bits(k: nat, n: nat): (r: seq<int>)
    ensures |r| == n
  {
    if n == 0 then [] else [k % 2] + Bits(k / 2, n - 1)
  }

  /** The sum of the entries (`x.stream().mapToInt(n -> n).sum()`). */
  function Sum(x: seq<int>): int
  {
    if |x| == 0 then 0 else x[0] + Sum(x[1..])
  }

  /** `incrementBinaryList`: the first 0 becomes 1 and every entry before it, each a carry,
      becomes 0; with no 0 at all every entry becomes 0. */
  function Incremented(x: seq<int>): (r: seq<int>)
    ensures |r| == |x|
  {
    if |x| == 0 then [] else if x[0] == 0 then [1] + x[1..] else [0] + Incremented(x[1..])
  }

  /** The encodings agree: decoding the n bits of a k below 2^n gives back k. */
  lemma {:induction false} BitsNumber(k: nat, n: nat)
    requires k < Pow2(n)
    ensures Binary(Bits(k, n)) && Number(Bits(k, n)) == k
  {
    if n > 0 {
      BitsNumber(k / 2, n - 1);
      var b := Bits(k, n);
      assert b[1..] == Bits(k / 2, n - 1);
    }
  }

  /** A binary list is the bit pattern of the number it holds, which is below 2^|x|. */
  lemma {:induction false} NumberBits(x: seq<int>)
    requires Binary(x)
    ensures Number(x) < Pow2(|x|) && Bits(Number(x), |x|) == x
  {
    if |x| > 0 {
      var t := x[1..];
      assert Binary(t) by {
        forall i | 0 <= i < |t| ensures t[i] == 0 || t[i] == 1 {
          assert t[i] == x[i + 1];
        }
      }
      NumberBits(t);
      var k := Number(x);
      assert k % 2 == x[0] && k / 2 == Number(t);
      assert x == [x[0]] + t;
    }
  }

  /** Incrementing the bit pattern of k gives the bit pattern of k + 1. */
  lemma {:induction false} BitsNext(k: nat, n: nat)
    ensures Incremented(Bits(k, n)) == Bits(k + 1, n)
  {
    if n > 0 {
      var b := Bits(k, n);
      assert b[1..] == Bits(k / 2, n - 1);
      if k % 2 == 1 {
        BitsNext(k / 2, n - 1);
        assert (k + 1) / 2 == k / 2 + 1;
      }
    }
  }

  /** 2^n has the same n bits as 0: the counter wraps. */
  lemma {:induction false} WrapBits(n: nat)
    ensures Bits(Pow2(n), n) == Bits(0, n)
  {
    if n > 0 {
      WrapBits(n - 1);
      assert Pow2(n) / 2 == Pow2(n - 1) && Pow2(n) % 2 == 0;
    }
  }

  /** The bits of 0 are all zeros. */
  lemma {:induction false} ZeroBits(n: nat)
    ensures forall i :: 0 <= i < n ==> Bits(0, n)[i] == 0
  {
    if n > 0 {
      ZeroBits(n - 1);
      var b := Bits(0, n);
      var c := b[1..];
      assert c == Bits(0, n - 1);
      forall i | 0 <= i < n ensures b[i] == 0 {
        if i > 0 { assert b[i] == c[i - 1]; }
      }
    }
  }

  /** On a binary list, incrementing adds one to the number it holds and keeps it binary, except
      that the largest number, 2^|x| - 1, wraps to 0. */
  lemma {:induction false} IncrementedValue(x: seq<int>)
    requires Binary(x)
    ensures Binary(Incremented(x))
    ensures Number(Incremented(x)) == if Number(x) + 1 == Pow2(|x|) then 0 else Number(x) + 1
  {
    var k := Number(x);
    assert k < Pow2(|x|) && Bits(k, |x|) == x by { NumberBits(x); }
    assert Incremented(x) == Bits(k + 1, |x|) by { BitsNext(k, |x|); }
    if k + 1 == Pow2(|x|) {
      assert Incremented(x) == Bits(0, |x|) by { WrapBits(|x|); }
      assert Binary(Incremented(x)) && Number(Incremented(x)) == 0 by { BitsNumber(0, |x|); }
    } else {
      assert Binary(Incremented(x)) && Number(Incremented(x)) == k + 1 by { BitsNumber(k + 1, |x|); }
    }
  }

  /** All ones, and only all ones, wraps to all zeros. */
  lemma {:induction false} IncrementedWrap(x: seq<int>)
    requires Binary(x)
    ensures (forall i :: 0 <= i < |x| ==> Incremented(x)[i] == 0) <==> (forall i :: 0 <= i < |x| ==> x[i] == 1)
  {
    var k := Number(x);
    assert k < Pow2(|x|) && Bits(k, |x|) == x by { NumberBits(x); }
    assert Incremented(x) == Bits(k + 1, |x|) by { BitsNext(k, |x|); }
    assert (forall i :: 0 <= i < |x| ==> x[i] == 1) <==> k + 1 == Pow2(|x|) by { AllOnes(k, |x|); }
    if k + 1 == Pow2(|x|) {
      WrapBits(|x|);
      ZeroBits(|x|);
    } else if forall i :: 0 <= i < |x| ==> Incremented(x)[i] == 0 {
      ZeroBits(|x|);
      assert Incremented(x) == Bits(0, |x|);
      BitsNumber(0, |x|);
      BitsNumber(k + 1, |x|);
    }
  }

  /** The bits of 2^n - 1 are all ones and no other k below 2^n has that pattern; the sum of the
      bits is at most n. */
  lemma {:induction false} AllOnes(k: nat, n: nat)
    requires k < Pow2(n)
    ensures Sum(Bits(k, n)) <= n
    ensures Sum(Bits(k, n)) == n <==> k == Pow2(n) - 1
    ensures (forall i :: 0 <= i < n ==> Bits(k, n)[i] == 1) <==> k == Pow2(n) - 1
  {
    if n > 0 {
      var b := Bits(k, n);
      var c := b[1..];
      assert c == Bits(k / 2, n - 1);
      AllOnes(k / 2, n - 1);
      if forall i :: 0 <= i < n ==> b[i] == 1 {
        assert forall i :: 0 <= i < n - 1 ==> c[i] == b[i + 1];
      }
      if k == Pow2(n) - 1 {
        assert k / 2 == Pow2(n - 1) - 1;
        forall i | 0 <= i < n ensures b[i] == 1 {
          if i > 0 { assert b[i] == c[i - 1]; }
        }
      }
    }
  }

  /** The best value found so far; Double.NEGATIVE_INFINITY before any selection qualifies. */
  datatype Extended = NegativeInfinity | Finite(value: real)

  /** `maxXV < sumXV`. */
  predicate Below(m: Extended, x: real)
  {
    m.NegativeInfinity? || m.value < x
  }

  /** A selection of the first n items lighter than the restriction. */
  predicate Feasible(w: seq<real>, restriction: real, x: seq<int>, n: nat)
    requires n <= |w| && n <= |x|
  {
    Weighted(w, x, n) < restriction
  }

  /** The best value after evaluating the bit patterns of 0, 1, ..., count - 1: a selection
      replaces it when it is feasible and strictly more valuable. */
  function BestUpTo(v: seq<real>, w: seq<real>, restriction: real, n: nat, count: nat): Extended
    requires n <= |v| && n <= |w|
  {
    if count == 0 then NegativeInfinity
    else
      var m := BestUpTo(v, w, restriction, n, count - 1);
      var x := Bits(count - 1, n);
      if Feasible(w, restriction, x, n) && Below(m, Weighted(v, x, n)) then Finite(Weighted(v, x, n)) else m
  }

  /** The best value is the largest value of a feasible pattern among the first count, and it
      stays minus infinity exactly when none of them is feasible. */
  lemma {:induction false} BestUpToIsMaximum(v: seq<real>, w: seq<real>, restriction: real, n: nat, count: nat)
    requires n <= |v| && n <= |w|
    ensures BestUpTo(v, w, restriction, n, count).NegativeInfinity?
      <==> forall k :: 0 <= k < count ==> !Feasible(w, restriction, Bits(k, n), n)
    ensures BestUpTo(v, w, restriction, n, count).Finite? ==>
      exists k :: 0 <= k < count && Feasible(w, restriction, Bits(k, n), n)
        && BestUpTo(v, w, restriction, n, count).value == Weighted(v, Bits(k, n), n)
    ensures BestUpTo(v, w, restriction, n, count).Finite? ==>
      forall k :: 0 <= k < count && Feasible(w, restriction, Bits(k, n), n)
        ==> Weighted(v, Bits(k, n), n) <= BestUpTo(v, w, restriction, n, count).value
  {
    if count > 0 {
      BestUpToIsMaximum(v, w, restriction, n, count - 1);
      var m := BestUpTo(v, w, restriction, n, count - 1);
      var x := Bits(count - 1, n);
      var m' := BestUpTo(v, w, restriction, n, count);
      if Feasible(w, restriction, x, n) {
        assert m'.Finite? && Weighted(v, x, n) <= m'.value;
        assert 0 <= count - 1 < count && Feasible(w, restriction, Bits(count - 1, n), n);
        if Below(m, Weighted(v, x, n)) {
          assert m' == Finite(Weighted(v, x, n));
          assert Feasible(w, restriction, Bits(count - 1, n), n) && m'.value == Weighted(v, Bits(count - 1, n), n);
          forall k | 0 <= k < count && Feasible(w, restriction, Bits(k, n), n)
            ensures Weighted(v, Bits(k, n), n) <= m'.value
          {
            if k < count - 1 {
              assert m.Finite? && Weighted(v, Bits(k, n), n) <= m.value;
            }
          }
          assert !BestUpTo(v, w, restriction, n, count).NegativeInfinity?;
          assert !(forall k :: 0 <= k < count ==> !Feasible(w, restriction, Bits(k, n), n));
        } else {
          assert m' == m;
        }
      } else {
        assert m' == m;
        assert (forall k :: 0 <= k < count ==> !Feasible(w, restriction, Bits(k, n), n))
          <==> (forall k :: 0 <= k < count - 1 ==> !Feasible(w, restriction, Bits(k, n), n));
      }
    }
  }

  /** Over all 2^n patterns the best value is the knapsack optimum over every 0/1 selection of
      n items: no feasible selection is worth more, some feasible selection attains it, and it
      is minus infinity exactly when no selection is feasible. */
  lemma {:induction false} Optimum(v: seq<real>, w: seq<real>, restriction: real, n: nat)
    requires n <= |v| && n <= |w|
    ensures var m := BestUpTo(v, w, restriction, n, Pow2(n));
      && (m.NegativeInfinity? <==> forall x :: |x| == n && Binary(x) ==> !Feasible(w, restriction, x, n))
      && (m.Finite? ==> exists x :: |x| == n && Binary(x) && Feasible(w, restriction, x, n) && m.value == Weighted(v, x, n))
      && (m.Finite? ==> forall x :: |x| == n && Binary(x) && Feasible(w, restriction, x, n) ==> Weighted(v, x, n) <= m.value)
  {
    var m := BestUpTo(v, w, restriction, n, Pow2(n));
    BestUpToIsMaximum(v, w, restriction, n, Pow2(n));
    forall x | |x| == n && Binary(x)
      ensures Number(x) < Pow2(n) && Bits(Number(x), n) == x
    {
      NumberBits(x);
    }
    if m.Finite? {
      var k :| 0 <= k < Pow2(n) && Feasible(w, restriction, Bits(k, n), n) && m.value == Weighted(v, Bits(k, n), n);
      BitsNumber(k, n);
    } else {
      forall x | |x| == n && Binary(x) ensures !Feasible(w, restriction, x, n) {
        assert !Feasible(w, restriction, Bits(Number(x), n), n);
      }
    }
  }

  /** `incrementBinaryList`, in place. */
  method IncrementBinaryList(a: array<int>)
    modifies a
    ensures a[..] == Incremented(old(a[..]))
  {
    var n := a.Length;
    for i := 0 to n
      invariant forall j :: 0 <= j < i ==> a[j] == 0 && old(a[j]) != 0
      invariant a[i..] == old(a[i..])
    {
      if a[i] == 0 {
        a[i] := 1;
        assert a[..] == a[..i] + [1] + old(a[i + 1..]);
        Carry(old(a[..]), i);
        return;
      }
      a[i] := 0;
    }
    Carry(old(a[..]), n);
  }

  /** Incrementing runs through the leading nonzero entries, turning each into 0. */
  lemma {:induction false} Carry(x: seq<int>, i: nat)
    requires i <= |x| && forall j :: 0 <= j < i ==> x[j] != 0
    ensures Incremented(x) == seq(i, _ => 0) + Incremented(x[i..])
  {
    if i > 0 {
      Carry(x[1..], i - 1);
      assert x[1..][i - 1..] == x[i..];
      assert seq(i, _ => 0) == [0] + seq(i - 1, _ => 0);
    }
  }

  /** `maximumValue` as written: the loop stops as soon as the counter is all ones, so the
      selection of every item is never evaluated; `increments` counts the calls to
      `incrementBinaryList`. */
  method MaximumValue(v: seq<real>, w: seq<real>, restriction: real) returns (r: Result<Extended>, ghost increments: nat)
    ensures r.Err? <==> |v| != |w|
    ensures r.Err? ==> r.error == IllegalArgument(LENGTH_MISMATCH)
    ensures r.Ok? ==> r.value == BestUpTo(v, w, restriction, |v|, Pow2(|v|) - 1) && increments == Pow2(|v|) - 1
  {
    if |v| != |w| {
      return Err(IllegalArgument(LENGTH_MISMATCH)), 0;
    }
    var n := |v|;
    var x := new int[n](_ => 0);
    ZeroBits(n);
    var maxXV := NegativeInfinity;
    increments := 0;
    AllOnes(0, n);
    while Sum(x[..]) < x.Length
      invariant x.Length == n && increments < Pow2(n) && x[..] == Bits(increments, n)
      invariant Sum(x[..]) == n <==> increments == Pow2(n) - 1
      invariant Sum(x[..]) <= n
      invariant maxXV == BestUpTo(v, w, restriction, n, increments)
      decreases Pow2(n) - increments
    {
      maxXV := Visit(v, w, restriction, x, maxXV, increments);
      increments := increments + 1;
      AllOnes(increments, n);
    }
    r := Ok(maxXV);
  }

  /** One round of the enumeration: evaluates the selection in `x`, keeps it when it is
      feasible and beats the best so far, and moves the counter on to the next pattern. */
  method Visit(v: seq<real>, w: seq<real>, restriction: real, x: array<int>, maxXV: Extended, ghost k: nat)
    returns (m: Extended)
    requires x.Length <= |v| && x.Length <= |w|
    requires x[..] == Bits(k, x.Length) && maxXV == BestUpTo(v, w, restriction, x.Length, k)
    modifies x
    ensures x[..] == Bits(k + 1, x.Length) && m == BestUpTo(v, w, restriction, x.Length, k + 1)
  {
    var sumXV, sumPenalty := Evaluation(v, w, x[..]);
    m := maxXV;
    if sumPenalty < restriction && Below(maxXV, sumXV) {
      m := Finite(sumXV);
    }
    IncrementBinaryList(x);
    BitsNext(k, x.Length);
  }

  /** The loop of `maximumValue` over every entry: the value and the weight of the selection. */
  method Evaluation(v: seq<real>, w: seq<real>, x: seq<int>) returns (sumXV: real, sumPenalty: real)
    requires |x| <= |v| && |x| <= |w|
    ensures sumXV == Weighted(v, x, |x|) && sumPenalty == Weighted(w, x, |x|)
  {
    sumXV, sumPenalty := 0.0, 0.0;
    for i := 0 to |x|
      invariant sumXV == Weighted(v, x, i) && sumPenalty == Weighted(w, x, i)
    {
      sumXV := sumXV + v[i] * (x[i] as real);
      sumPenalty := sumPenalty + w[i] * (x[i] as real);
    }
  }

  /** The enumeration with every one of the 2^n selections evaluated, all ones included; its
      result is the knapsack optimum of `Optimum`. */
  method MaximumValueCorrected(v: seq<real>, w: seq<real>, restriction: real) returns (r: Result<Extended>)
    ensures r.Err? <==> |v| != |w|
    ensures r.Err? ==> r.error == IllegalArgument(LENGTH_MISMATCH)
    ensures r.Ok? ==> r.value == BestUpTo(v, w, restriction, |v|, Pow2(|v|))
  {
    if |v| != |w| {
      return Err(IllegalArgument(LENGTH_MISMATCH));
    }
    var n := |v|;
    var x := new int[n](_ => 0);
    ZeroBits(n);
    var maxXV := NegativeInfinity;
    var count := 0;
    var total := Pow2(n);
    while count < total
      invariant x.Length == n && count <= total && x[..] == Bits(count, n)
      invariant maxXV == BestUpTo(v, w, restriction, n, count)
    {
      maxXV := Visit(v, w, restriction, x, maxXV, count);
      count := count + 1;
    }
    r := Ok(maxXV);
  }

  /** The discrepancy: with one item of value 1 and weight 1 under restriction 10, selecting the
      item is feasible and worth 1, but the enumeration as written stops before it and reports
      0; the corrected one reports 1. */
  lemma MissedSelection()
    ensures Feasible([1.0], 10.0, [1], 1) && Weighted([1.0], [1], 1) == 1.0
    ensures BestUpTo([1.0], [1.0], 10.0, 1, Pow2(1) - 1) == Finite(0.0)
    ensures BestUpTo([1.0], [1.0], 10.0, 1, Pow2(1)) == Finite(1.0)
  {
    assert Bits(0, 1) == [0] && Bits(1, 1) == [1];
  }
}
