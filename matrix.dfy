/** Dense real matrices stored in a rectangular two-dimensional array (Matrix.java). Every
    arithmetic operation checks dimensions, fills a fresh result matrix with nested loops and
    leaves both operands as they were. Doubles are modelled as reals. */
module Matrices {
  import opened Wrappers

  const ADD_DIMENSIONS := "Matrices must have the same dimensions for addition."
  const SUBTRACT_DIMENSIONS := "Matrices must have the same dimensions for subtraction."
  const MULTIPLY_DIMENSIONS := "Number of columns in the first matrix must equal the number of rows in the second matrix for multiplication."

  /** The sum of the first n products a[i, k] * b[k, j], added in increasing k as the innermost
      loop of `multiply` accumulates them. */
  function Dot(a: array2<real>, b: array2<real>, i: nat, j: nat, n: nat): real
    reads a, b
    requires i < a.Length0 && j < b.Length1 && n <= a.Length1 && n <= b.Length0
  {
    if n == 0 then 0.0 else Dot(a, b, i, j, n - 1) + a[i, n - 1] * b[n - 1, j]
  }

  class Matrix {
    const rows: nat
    const cols: nat
    const data: array2<real>

    /** The storage has exactly the declared dimensions. */
    ghost predicate Valid()
      reads this
    {
      data.Length0 == rows && data.Length1 == cols
    }

    /** `Matrix(rows, cols)`: a rows x cols matrix of zeros in fresh storage. */
    constructor Zeros(rows: nat, cols: nat)
      ensures Valid() && this.rows == rows && this.cols == cols && fresh(data)
      ensures forall i, j :: 0 <= i < rows && 0 <= j < cols ==> data[i, j] == 0.0
    {
      this.rows := rows;
      this.cols := cols;
      data := new real[rows, cols]((i, j) => 0.0);
    }

    /** `get`: the entry at (row, col); an index outside the storage throws. */
    function Get(row: int, col: int): (r: Result<real>)
      reads this, data
      requires Valid()
      ensures r.Ok? <==> 0 <= row < rows && 0 <= col < cols
      ensures r.Err? ==> r.error == IndexOutOfBounds
      ensures r.Ok? ==> r.value == data[row, col]
    {
      if 0 <= row < rows && 0 <= col < cols then Ok(data[row, col]) else Err(IndexOutOfBounds)
    }

    /** `set`: overwrites the entry at (row, col) and no other; an index outside the storage
        throws and changes nothing. */
    method Set(row: int, col: int, value: real) returns (r: Result<()>)
      requires Valid()
      modifies data
      ensures r.Ok? <==> 0 <= row < rows && 0 <= col < cols
      ensures r.Err? ==> r.error == IndexOutOfBounds && unchanged(data)
      ensures r.Ok? ==> Get(row, col) == Ok(value)
      ensures forall i, j :: 0 <= i < rows && 0 <= j < cols && (i != row || j != col) ==>
        data[i, j] == old(data[i, j])
    {
      if !(0 <= row < rows && 0 <= col < cols) {
        return Err(IndexOutOfBounds);
      }
      data[row, col] := value;
      r := Ok(());
    }

    /** `add`: mismatched dimensions throw; otherwise every entry of the fresh result is the sum
        of the corresponding entries. */
    method Add(other: Matrix) returns (r: Result<Matrix>)
      requires Valid() && other.Valid()
      ensures r.Err? <==> rows != other.rows || cols != other.cols
      ensures r.Err? ==> r.error == IllegalArgument(ADD_DIMENSIONS)
      ensures r.Ok? ==> fresh(r.value) && fresh(r.value.data) && r.value.Valid()
      ensures r.Ok? ==> r.value.rows == rows && r.value.cols == cols
      ensures r.Ok? ==> forall i, j :: 0 <= i < rows && 0 <= j < cols ==>
        r.value.data[i, j] == data[i, j] + other.data[i, j]
    {
      if rows != other.rows || cols != other.cols {
        return Err(IllegalArgument(ADD_DIMENSIONS));
      }
      var result := new Matrix.Zeros(rows, cols);
      for i := 0 to rows
        invariant forall i', j :: 0 <= i' < i && 0 <= j < cols ==>
          result.data[i', j] == data[i', j] + other.data[i', j]
      {
        for j := 0 to cols
          invariant forall i', j' :: 0 <= i' < i && 0 <= j' < cols ==>
            result.data[i', j'] == data[i', j'] + other.data[i', j']
          invariant forall j' :: 0 <= j' < j ==> result.data[i, j'] == data[i, j'] + other.data[i, j']
        {
          result.data[i, j] := data[i, j] + other.data[i, j];
        }
      }
      r := Ok(result);
    }

    /** `subtract`: mismatched dimensions throw; otherwise every entry of the fresh result is
        the difference of the corresponding entries. */
    method Subtract(other: Matrix) returns (r: Result<Matrix>)
      requires Valid() && other.Valid()
      ensures r.Err? <==> rows != other.rows || cols != other.cols
      ensures r.Err? ==> r.error == IllegalArgument(SUBTRACT_DIMENSIONS)
      ensures r.Ok? ==> fresh(r.value) && fresh(r.value.data) && r.value.Valid()
      ensures r.Ok? ==> r.value.rows == rows && r.value.cols == cols
      ensures r.Ok? ==> forall i, j :: 0 <= i < rows && 0 <= j < cols ==>
        r.value.data[i, j] == data[i, j] - other.data[i, j]
    {
      if rows != other.rows || cols != other.cols {
        return Err(IllegalArgument(SUBTRACT_DIMENSIONS));
      }
      var result := new Matrix.Zeros(rows, cols);
      for i := 0 to rows
        invariant forall i', j :: 0 <= i' < i && 0 <= j < cols ==>
          result.data[i', j] == data[i', j] - other.data[i', j]
      {
        for j := 0 to cols
          invariant forall i', j' :: 0 <= i' < i && 0 <= j' < cols ==>
            result.data[i', j'] == data[i', j'] - other.data[i', j']
          invariant forall j' :: 0 <= j' < j ==> result.data[i, j'] == data[i, j'] - other.data[i, j']
        {
          result.data[i, j] := data[i, j] - other.data[i, j];
        }
      }
      r := Ok(result);
    }

    /** `multiply`: throws unless the column count equals the other's row count; otherwise the
        fresh result is rows x other.cols and entry (i, j) is the sum over k of
        this[i, k] * other[k, j]. */
    method Multiply(other: Matrix) returns (r: Result<Matrix>)
      requires Valid() && other.Valid()
      ensures r.Err? <==> cols != other.rows
      ensures r.Err? ==> r.error == IllegalArgument(MULTIPLY_DIMENSIONS)
      ensures r.Ok? ==> fresh(r.value) && fresh(r.value.data) && r.value.Valid()
      ensures r.Ok? ==> r.value.rows == rows && r.value.cols == other.cols
      ensures r.Ok? ==> forall i, j :: 0 <= i < rows && 0 <= j < other.cols ==>
        r.value.data[i, j] == Dot(data, other.data, i, j, cols)
    {
      if cols != other.rows {
        return Err(IllegalArgument(MULTIPLY_DIMENSIONS));
      }
      var result := new Matrix.Zeros(rows, other.cols);
      for i := 0 to rows
        invariant forall i', j :: 0 <= i' < i && 0 <= j < other.cols ==>
          result.data[i', j] == Dot(data, other.data, i', j, cols)
        invariant forall i', j :: i <= i' < rows && 0 <= j < other.cols ==> result.data[i', j] == 0.0
      {
        for j := 0 to other.cols
          invariant forall i', j' :: 0 <= i' < i && 0 <= j' < other.cols ==>
            result.data[i', j'] == Dot(data, other.data, i', j', cols)
          invariant forall j' :: 0 <= j' < j ==> result.data[i, j'] == Dot(data, other.data, i, j', cols)
          invariant forall i', j' :: i <= i' < rows && 0 <= j' < other.cols && (i' != i || j <= j') ==>
            result.data[i', j'] == 0.0
        {
          for k := 0 to cols
            invariant result.data[i, j] == Dot(data, other.data, i, j, k)
            invariant forall i', j' :: 0 <= i' < i && 0 <= j' < other.cols ==>
              result.data[i', j'] == Dot(data, other.data, i', j', cols)
            invariant forall j' :: 0 <= j' < j ==> result.data[i, j'] == Dot(data, other.data, i, j', cols)
            invariant forall i', j' :: i <= i' < rows && 0 <= j' < other.cols && (i' != i || j < j') ==>
              result.data[i', j'] == 0.0
          {
            result.data[i, j] := result.data[i, j] + data[i, k] * other.data[k, j];
          }
        }
      }
      r := Ok(result);
    }

    /** `scalarMultiply`: a fresh matrix of the same dimensions with every entry scaled. */
    method ScalarMultiply(scalar: real) returns (r: Matrix)
      requires Valid()
      ensures fresh(r) && fresh(r.data) && r.Valid()
      ensures r.rows == rows && r.cols == cols
      ensures forall i, j :: 0 <= i < rows && 0 <= j < cols ==> r.data[i, j] == data[i, j] * scalar
    {
      r := new Matrix.Zeros(rows, cols);
      for i := 0 to rows
        invariant forall i', j :: 0 <= i' < i && 0 <= j < cols ==> r.data[i', j] == data[i', j] * scalar
      {
        for j := 0 to cols
          invariant forall i', j' :: 0 <= i' < i && 0 <= j' < cols ==> r.data[i', j'] == data[i', j'] * scalar
          invariant forall j' :: 0 <= j' < j ==> r.data[i, j'] == data[i, j'] * scalar
        {
          r.data[i, j] := data[i, j] * scalar;
        }
      }
    }
  }

  /** `Matrix(double[][])`: the dimensions are the number of source rows and the length of the
      first one; each row's first `cols` entries are copied into fresh storage, so later changes
      to the source cannot reach the matrix. An empty source, or a row shorter than the first,
      makes the copy fail with an index error. */
  method FromRows(source: seq<seq<real>>) returns (r: Result<Matrix>)
    ensures r.Err? <==> |source| == 0 || exists i :: 0 <= i < |source| && |source[i]| < |source[0]|
    ensures r.Err? ==> r.error == IndexOutOfBounds
    ensures r.Ok? ==> fresh(r.value) && fresh(r.value.data) && r.value.Valid()
    ensures r.Ok? ==> r.value.rows == |source| && r.value.cols == |source[0]|
    ensures r.Ok? ==> forall i, j :: 0 <= i < r.value.rows && 0 <= j < r.value.cols ==>
      r.value.data[i, j] == source[i][j]
  {
    if |source| == 0 {
      return Err(IndexOutOfBounds);
    }
    var m := new Matrix.Zeros(|source|, |source[0]|);
    for i := 0 to m.rows
      invariant forall i' :: 0 <= i' < i ==> |source[i']| >= m.cols
      invariant forall i', j :: 0 <= i' < i && 0 <= j < m.cols ==> m.data[i', j] == source[i'][j]
    {
      if |source[i]| < m.cols {
        return Err(IndexOutOfBounds);
      }
      // System.arraycopy of one row
      forall j | 0 <= j < m.cols {
        m.data[i, j] := source[i][j];
      }
    }
    r := Ok(m);
  }
}
