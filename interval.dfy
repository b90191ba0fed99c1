/** A closed real interval carrying a current value that is always kept inside it
    (Interval.java), with interval arithmetic. Doubles are modelled as reals. */
module Intervals {
  import opened Wrappers

  const BOUNDS_ORDER := "Lower bound cannot be greater than upper bound."
  const DIVISION_BY_ZERO := "Division by an interval containing zero is undefined."

  /** `value(double)`: a value below the interval is raised to `low`, one above it is lowered
      to `upper`, and any other value is kept. */
  function Clamp(low: real, upper: real, v: real): (r: real)
    requires low <= upper
    ensures low <= r <= upper
    ensures low <= v <= upper ==> r == v
    ensures r == v || (v < low && r == low) || (upper < v && r == upper)
  {
    if v < low then low
    else if v > upper then upper
    else v
  }

  function Min(a: real, b: real): real { if a <= b then a else b }

  function Max(a: real, b: real): real { if a >= b then a else b }

  /** The smallest of four endpoint combinations, as `Math.min(Math.min(a, b), Math.min(c, d))`. */
  function Min4(a: real, b: real, c: real, d: real): (r: real)
    ensures r <= a && r <= b && r <= c && r <= d
    ensures r == a || r == b || r == c || r == d
  {
    Min(Min(a, b), Min(c, d))
  }

  /** The largest of four endpoint combinations, as `Math.max(Math.max(a, b), Math.max(c, d))`. */
  function Max4(a: real, b: real, c: real, d: real): (r: real)
    ensures r >= a && r >= b && r >= c && r >= d
    ensures r == a || r == b || r == c || r == d
  {
    Max(Max(a, b), Max(c, d))
  }

  /** The sign rule for a product of two non-negative reals. */
  lemma NonNegativeProduct(a: real, b: real)
    requires a >= 0.0 && b >= 0.0
    ensures a * b >= 0.0
  {
  }

  /** Multiplying a point of [l, u] by a fixed factor y lands between l * y and u * y. */
  lemma ScaleBetween(x: real, l: real, u: real, y: real)
    requires l <= x <= u
    ensures Min(l * y, u * y) <= x * y <= Max(l * y, u * y)
  {
    if y >= 0.0 {
      NonNegativeProduct(x - l, y);
      NonNegativeProduct(u - x, y);
      assert (x - l) * y == x * y - l * y;
      assert (u - x) * y == u * y - x * y;
    } else {
      NonNegativeProduct(x - l, -y);
      NonNegativeProduct(u - x, -y);
      assert (x - l) * (-y) == l * y - x * y;
      assert (u - x) * (-y) == x * y - u * y;
    }
  }

  /** ScaleBetween with the fixed factor on the left. */
  lemma ScaleBetweenLeft(y: real, l: real, u: real, c: real)
    requires l <= y <= u
    ensures Min(c * l, c * u) <= c * y <= Max(c * l, c * u)
  {
    ScaleBetween(y, l, u, c);
    assert l * c == c * l && u * c == c * u && y * c == c * y;
  }

  /** A point between e and f, where e lies between a and b and f between c and d, lies between
      the least and the greatest of a, b, c and d. */
  lemma Between4(m: real, e: real, f: real, a: real, b: real, c: real, d: real)
    requires Min(e, f) <= m <= Max(e, f)
    requires Min(a, b) <= e <= Max(a, b) && Min(c, d) <= f <= Max(c, d)
    ensures Min4(a, b, c, d) <= m <= Max4(a, b, c, d)
  {
  }

  /** Soundness of `multiply`: the product of any two points of the operands lies between the
      smallest and the largest endpoint product, so those bounds enclose every possible product
      and the lower one never exceeds the upper one. */
  lemma ProductEnclosure(x: real, l1: real, u1: real, y: real, l2: real, u2: real)
    requires l1 <= x <= u1 && l2 <= y <= u2
    ensures Min4(l1 * l2, l1 * u2, u1 * l2, u1 * u2) <= x * y <= Max4(l1 * l2, l1 * u2, u1 * l2, u1 * u2)
  {
    // x * y lies between l1 * y and u1 * y, and each of those between two endpoint products
    ScaleBetween(x, l1, u1, y);
    ScaleBetweenLeft(y, l2, u2, l1);
    ScaleBetweenLeft(y, l2, u2, u1);
    Between4(x * y, l1 * y, u1 * y, l1 * l2, l1 * u2, u1 * l2, u1 * u2);
  }

  /** Taking reciprocals reverses the order of two reals of the same sign. */
  lemma ReciprocalBetween(y: real, l: real, u: real)
    requires l <= y <= u
    requires 0.0 < l || u < 0.0
    ensures 1.0 / u <= 1.0 / y <= 1.0 / l
  {
    if 0.0 < l {
      assert 1.0 / y - 1.0 / u == (u - y) / (y * u);
      assert 1.0 / l - 1.0 / y == (y - l) / (l * y);
      NonNegativeProduct(y, u);
      NonNegativeProduct(l, y);
    } else {
      assert 1.0 / y - 1.0 / u == (u - y) / (y * u);
      assert 1.0 / l - 1.0 / y == (y - l) / (l * y);
      NonNegativeProduct(-y, -u);
      NonNegativeProduct(-l, -y);
    }
  }

  /** Dividing is multiplying by the reciprocal. */
  lemma DivisionAsProduct(a: real, b: real)
    requires b != 0.0
    ensures a / b == a * (1.0 / b)
  {
  }

  /** Dividing a point of [l, u] by a fixed non-zero divisor y lands between l / y and u / y. */
  lemma DividendBetween(x: real, l: real, u: real, y: real)
    requires l <= x <= u && y != 0.0
    ensures Min(l / y, u / y) <= x / y <= Max(l / y, u / y)
  {
    ScaleBetween(x, l, u, 1.0 / y);
    assert x / y == x * (1.0 / y) && l / y == l * (1.0 / y) && u / y == u * (1.0 / y);
  }

  /** Dividing a fixed c by a point of [l, u], an interval clear of zero, lands between c / l
      and c / u. */
  lemma DivisorBetween(c: real, y: real, l: real, u: real)
    requires l <= y <= u && (0.0 < l || u < 0.0)
    ensures Min(c / l, c / u) <= c / y <= Max(c / l, c / u)
  {
    ReciprocalBetween(y, l, u);
    ScaleBetweenLeft(1.0 / y, 1.0 / u, 1.0 / l, c);
    DivisionAsProduct(c, y);
    DivisionAsProduct(c, l);
    DivisionAsProduct(c, u);
  }

  /** Soundness of `divide`: when the divisor's interval does not contain zero, the quotient of
      any two points of the operands lies between the smallest and the largest endpoint
      quotient, so the clamping in `divide` never moves the quotient of the values. */
  lemma QuotientEnclosure(x: real, l1: real, u1: real, y: real, l2: real, u2: real)
    requires l1 <= x <= u1 && l2 <= y <= u2
    requires 0.0 < l2 || u2 < 0.0
    ensures Min4(l1 / l2, l1 / u2, u1 / l2, u1 / u2) <= x / y <= Max4(l1 / l2, l1 / u2, u1 / l2, u1 / u2)
  {
    // x / y lies between l1 / y and u1 / y, and each of those between two endpoint quotients
    DividendBetween(x, l1, u1, y);
    DivisorBetween(l1, y, l2, u2);
    DivisorBetween(u1, y, l2, u2);
    Between4(x / y, l1 / y, u1 / y, l1 / l2, l1 / u2, u1 / l2, u1 / u2);
  }

  /** Soundness of `add` and `subtract`: the sum and the difference of two points of the operands
      lie inside the new bounds, so their values are stored without clamping. */
  lemma SumEnclosure(x: real, l1: real, u1: real, y: real, l2: real, u2: real)
    requires l1 <= x <= u1 && l2 <= y <= u2
    ensures l1 + l2 <= x + y <= u1 + u2
    ensures l1 - u2 <= x - y <= u1 - l2
  {
  }

  /** The lower bound of `multiply`: the least endpoint product. */
  function ProductLow(l1: real, u1: real, l2: real, u2: real): real
  {
    Min4(l1 * l2, l1 * u2, u1 * l2, u1 * u2)
  }

  /** The upper bound of `multiply`: the greatest endpoint product. */
  function ProductUpper(l1: real, u1: real, l2: real, u2: real): real
  {
    Max4(l1 * l2, l1 * u2, u1 * l2, u1 * u2)
  }

  /** The lower bound of `divide`: the least endpoint quotient. */
  function QuotientLow(l1: real, u1: real, l2: real, u2: real): real
    requires l2 != 0.0 && u2 != 0.0
  {
    Min4(l1 / l2, l1 / u2, u1 / l2, u1 / u2)
  }

  /** The upper bound of `divide`: the greatest endpoint quotient. */
  function QuotientUpper(l1: real, u1: real, l2: real, u2: real): real
    requires l2 != 0.0 && u2 != 0.0
  {
    Max4(l1 / l2, l1 / u2, u1 / l2, u1 / u2)
  }

  class Interval {
    const low: real
    const upper: real
    var value: real

    /** What every constructor establishes and every operation keeps. */
    ghost predicate Valid()
      reads this
    {
      low <= value <= upper
    }

    /** The private part shared by the constructors, once `isValidBounds` has passed. */
    constructor Make(low: real, upper: real, value: real)
      requires low <= upper
      ensures this.low == low && this.upper == upper
      ensures this.value == Clamp(low, upper, value)
      ensures Valid()
    {
      this.low := low;
      this.upper := upper;
      this.value := Clamp(low, upper, value);
    }

    /** `value(double)`. */
    method SetValue(v: real)
      requires Valid()
      modifies this
      ensures value == Clamp(low, upper, v) && Valid()
    {
      if v < low {
        value := low;
      } else if v > upper {
        value := upper;
      } else {
        value := v;
      }
    }

    /** `change()`: a fresh value `draw * (upper - low) + low`, with the uniform draw in [0, 1)
        supplied by the caller. */
    method ChangeRandom(draw: real) returns (r: Interval)
      requires Valid()
      modifies this
      ensures r == this
      ensures value == Clamp(low, upper, draw * (upper - low) + low) && Valid()
    {
      SetValue(draw * (upper - low) + low);
      r := this;
    }

    /** `change(variation)`: scales the value by `1 + variation`, clamped, and returns the same
        object. */
    method Change(variation: real) returns (r: Interval)
      requires Valid()
      modifies this
      ensures r == this
      ensures value == Clamp(low, upper, old(value) * (1.0 + variation)) && Valid()
    {
      SetValue(value * (1.0 + variation));
      r := this;
    }

    /** `add`: bounds and values add up; neither operand changes. */
    method Add(other: Interval) returns (r: Interval)
      requires Valid() && other.Valid()
      ensures fresh(r) && r.Valid()
      ensures r.low == low + other.low && r.upper == upper + other.upper
      ensures r.value == value + other.value
    {
      SumEnclosure(value, low, upper, other.value, other.low, other.upper);
      r := new Interval.Make(low + other.low, upper + other.upper, value + other.value);
    }

    /** `subtract`: [l1 - u2, u1 - l2] with the difference of the values; neither operand changes. */
    method Subtract(other: Interval) returns (r: Interval)
      requires Valid() && other.Valid()
      ensures fresh(r) && r.Valid()
      ensures r.low == low - other.upper && r.upper == upper - other.low
      ensures r.value == value - other.value
    {
      SumEnclosure(value, low, upper, other.value, other.low, other.upper);
      r := new Interval.Make(low - other.upper, upper - other.low, value - other.value);
    }

    /** `multiply`: the bounds are the extreme endpoint products and the value is the product of
        the values, which the bounds always enclose; neither operand changes. */
    method Multiply(other: Interval) returns (r: Interval)
      requires Valid() && other.Valid()
      ensures fresh(r) && r.Valid()
      ensures r.low == ProductLow(low, upper, other.low, other.upper)
      ensures r.upper == ProductUpper(low, upper, other.low, other.upper)
      ensures r.value == value * other.value
    {
      r := NewProduct(low, upper, other.low, other.upper, value, other.value);
    }

    /** `divide`: a divisor whose bounds straddle or touch zero raises ArithmeticException;
        otherwise the bounds are the extreme endpoint quotients and the value is the quotient of
        the values, which the bounds always enclose; neither operand changes. */
    method Divide(other: Interval) returns (r: Result<Interval>)
      requires Valid() && other.Valid()
      ensures r.Err? <==> other.low <= 0.0 <= other.upper
      ensures r.Err? ==> r.error == Arithmetic(DIVISION_BY_ZERO)
      ensures r.Ok? ==> fresh(r.value) && r.value.Valid()
      ensures r.Ok? ==> r.value.low == QuotientLow(low, upper, other.low, other.upper)
      ensures r.Ok? ==> r.value.upper == QuotientUpper(low, upper, other.low, other.upper)
      ensures r.Ok? ==> r.value.value == value / other.value
    {
      if other.low <= 0.0 && other.upper >= 0.0 {
        return Err(Arithmetic(DIVISION_BY_ZERO));
      }
      var q := NewQuotient(low, upper, other.low, other.upper, value, other.value);
      r := Ok(q);
    }
  }

  /** The interval `multiply` builds from the operands' bounds and values. */
  method NewProduct(l1: real, u1: real, l2: real, u2: real, x: real, y: real) returns (r: Interval)
    requires l1 <= x <= u1 && l2 <= y <= u2
    ensures fresh(r) && r.Valid()
    ensures r.low == ProductLow(l1, u1, l2, u2) && r.upper == ProductUpper(l1, u1, l2, u2)
    ensures r.value == x * y
  {
    ProductEnclosure(x, l1, u1, y, l2, u2);
    r := new Interval.Make(ProductLow(l1, u1, l2, u2), ProductUpper(l1, u1, l2, u2), x * y);
  }

  /** The interval `divide` builds from the operands' bounds and values; the clamping of the
      quotient that `divide` applies leaves it as it is. */
  method NewQuotient(l1: real, u1: real, l2: real, u2: real, x: real, y: real) returns (r: Interval)
    requires l1 <= x <= u1 && l2 <= y <= u2
    requires 0.0 < l2 || u2 < 0.0
    ensures fresh(r) && r.Valid()
    ensures r.low == QuotientLow(l1, u1, l2, u2) && r.upper == QuotientUpper(l1, u1, l2, u2)
    ensures r.value == x / y
  {
    QuotientEnclosure(x, l1, u1, y, l2, u2);
    r := new Interval.Make(QuotientLow(l1, u1, l2, u2), QuotientUpper(l1, u1, l2, u2), x / y);
  }

  /** `new Interval(low, upper, value)`: IllegalArgumentException when `low > upper` (equal
      bounds are allowed), otherwise the value is clamped into the bounds. */
  method NewInterval(low: real, upper: real, value: real) returns (r: Result<Interval>)
    ensures r.Err? <==> low > upper
    ensures r.Err? ==> r.error == IllegalArgument(BOUNDS_ORDER)
    ensures r.Ok? ==> fresh(r.value) && r.value.Valid()
    ensures r.Ok? ==> r.value.low == low && r.value.upper == upper && r.value.value == Clamp(low, upper, value)
  {
    if low > upper {
      return Err(IllegalArgument(BOUNDS_ORDER));
    }
    var i := new Interval.Make(low, upper, value);
    r := Ok(i);
  }

  /** `new Interval(low, upper)`: as above with the value `draw * (upper - low) + low` from a
      uniform draw in [0, 1) supplied by the caller. */
  method NewRandomInterval(low: real, upper: real, draw: real) returns (r: Result<Interval>)
    ensures r.Err? <==> low > upper
    ensures r.Err? ==> r.error == IllegalArgument(BOUNDS_ORDER)
    ensures r.Ok? ==> fresh(r.value) && r.value.Valid()
    ensures r.Ok? ==> r.value.low == low && r.value.upper == upper
    ensures r.Ok? && 0.0 <= draw <= 1.0 ==> r.value.value == draw * (upper - low) + low
  {
    if low > upper {
      return Err(IllegalArgument(BOUNDS_ORDER));
    }
    if 0.0 <= draw <= 1.0 {
      NonNegativeProduct(draw, upper - low);
      NonNegativeProduct(1.0 - draw, upper - low);
      assert (1.0 - draw) * (upper - low) == (upper - low) - draw * (upper - low);
    }
    var i := new Interval.Make(low, upper, draw * (upper - low) + low);
    r := Ok(i);
  }

  /** `new Interval(other)`: a separate interval with the same bounds and value. */
  method CopyInterval(other: Interval) returns (r: Interval)
    requires other.Valid()
    ensures fresh(r) && r.Valid()
    ensures r.low == other.low && r.upper == other.upper && r.value == other.value
  {
    r := new Interval.Make(other.low, other.upper, other.value);
  }

  /** The examples of the unit tests: [1, 3] and [2, 4] with values 2 and 3. */
  lemma ArithmeticExamples()
    ensures Clamp(1.0, 5.0, 4.0) == 4.0
    ensures ProductLow(1.0, 3.0, 2.0, 4.0) == 2.0 && ProductUpper(1.0, 3.0, 2.0, 4.0) == 12.0
    ensures QuotientLow(1.0, 3.0, 2.0, 4.0) == 0.25 && QuotientUpper(1.0, 3.0, 2.0, 4.0) == 1.5
  {
  }
}
