/** Matrix.java: a fixed-size row-major float buffer with an O(1) transpose flag. */
module Matrices {
  import opened Errors
  import opened Dense
  import opened Numerics

  class Matrix {
    /** Physical shape, fixed at construction. */
    const rows: nat
    const cols: nat
    /** Row-major backing buffer. */
    const data: array<real>
    /** Reinterprets the buffer as its transpose when set. */
    var transposed: bool

    /** The buffer holds rows * cols cells. */
    predicate Valid()
    {
      data.Length == rows * cols
    }

    /** The value of this matrix in the current heap. */
    function View(): (v: Mat)
      reads this, data
      ensures v.Valid() == Valid() && v.Rows() == Rows() && v.Cols() == Cols()
    {
      Mat(rows, cols, transposed, data[..])
    }

    /** rows(): the logical row count. */
    function Rows(): nat
      reads this
    {
      if transposed then cols else rows
    }

    /** cols(): the logical column count. */
    function Cols(): nat
      reads this
    {
      if transposed then rows else cols
    }

    /** checkIndex: throws unless (row, col) lies inside the logical shape. */
    function CheckIndex(row: int, col: int): (r: Outcome)
      reads this
      ensures r.Pass? <==> 0 <= row < Rows() && 0 <= col < Cols()
      ensures r.Fail? ==> r.error == IndexOutOfBounds
    {
      if row < 0 || row >= Rows() || col < 0 || col >= Cols() then Fail(IndexOutOfBounds) else Pass
    }

    /** Matrix(rows, cols): a zero matrix. */
    constructor(rows: nat, cols: nat)
      ensures this.rows == rows && this.cols == cols && !transposed
      ensures Valid() && fresh(data)
      ensures data[..] == Zeros(rows * cols)
    {
      this.rows := rows;
      this.cols := cols;
      data := new real[rows * cols](_ => 0.0);
      transposed := false;
    }

    /** Matrix(Matrix): copies the shape, the buffer (into a fresh array) and the flag. */
    constructor Copy(matrix: Matrix)
      requires matrix.Valid()
      ensures rows == matrix.rows && cols == matrix.cols && transposed == matrix.transposed
      ensures Valid() && fresh(data)
      ensures data[..] == matrix.data[..]
    {
      rows := matrix.rows;
      cols := matrix.cols;
      var source := matrix.data[..];
      data := new real[|source|](i => if 0 <= i < |source| then source[i] else 0.0);
      transposed := matrix.transposed;
    }

    /** transpose(): flips the flag; the buffer is untouched. */
    method Transpose()
      modifies this
      ensures transposed == !old(transposed)
      ensures View() == old(View()).Transposed()
    {
      transposed := !transposed;
    }

    /** The element at an in-bounds logical position, read straight from the buffer. */
    function At(row: nat, col: nat): (x: real)
      reads this, data
      requires Valid() && row < Rows() && col < Cols()
      ensures x == View().Get(row, col)
    {
      var p := View().Offset(row, col);
      data[p]
    }

    /** get(row, col) */
    method Get(row: int, col: int) returns (r: Result<real>)
      requires Valid()
      ensures r.Ok? <==> 0 <= row < Rows() && 0 <= col < Cols()
      ensures r.Ok? ==> r.value == View().Get(row, col)
      ensures r.Err? ==> r.error == IndexOutOfBounds
    {
      var check := CheckIndex(row, col);
      if check.Fail? {
        return Err(check.error);
      }
      r := Ok(At(row, col));
    }

    /** set(row, col, value): writes exactly one cell, or throws and writes nothing. */
    method Set(row: int, col: int, value: real) returns (r: Outcome)
      requires Valid()
      modifies data
      ensures r == CheckIndex(row, col)
      ensures r.Fail? ==> data[..] == old(data[..])
      ensures r.Pass? ==> data[..] == old(data[..])[View().Offset(row, col) := value]
      ensures r.Pass? ==> forall i, j :: 0 <= i < Rows() && 0 <= j < Cols() ==>
                View().Get(i, j) == if i == row && j == col then value else old(View()).Get(i, j)
    {
      r := CheckIndex(row, col);
      if r.Fail? {
        return;
      }
      ghost var before := View();
      var p := Index(transposed, cols, row, col);
      assert p == before.Offset(row, col);
      data[p] := value;
      forall i, j | 0 <= i < Rows() && 0 <= j < Cols() && !(i == row && j == col)
        ensures View().Get(i, j) == before.Get(i, j)
      {
        if before.Offset(i, j) == p {
          IndexInjective(before, i, j, row, col);
        }
      }
    }

    /** dot(a, b, result): result := a · b after checking both shapes. */
    static method Dot(a: Matrix, b: Matrix, result: Matrix) returns (r: Outcome)
      requires a.Valid() && b.Valid() && result.Valid()
      requires result.data != a.data && result.data != b.data
      modifies result.data
      ensures r.Fail? <==> a.Cols() != b.Rows() || result.Rows() != a.Rows() || result.Cols() != b.Cols()
      ensures r.Fail? ==> r.error == IllegalArgument && result.data[..] == old(result.data[..])
      ensures r.Pass? ==> IsProduct(result.View(), a.View(), b.View())
    {
      if a.Cols() != b.Rows() {
        return Fail(IllegalArgument);
      }
      if result.Rows() != a.Rows() || result.Cols() != b.Cols() {
        return Fail(IllegalArgument);
      }
      var A, B := a.View(), b.View();
      var i := 0;
      while i < a.Rows()
        invariant 0 <= i <= a.Rows()
        invariant forall i', j' :: 0 <= i' < i && 0 <= j' < b.Cols() ==>
                    result.View().Get(i', j') == Mul(ProductSum(A, B, i', j', A.Cols()), 1.0)
      {
        var j := 0;
        while j < b.Cols()
          invariant 0 <= j <= b.Cols()
          invariant forall i', j' :: 0 <= i' <= i && 0 <= j' < b.Cols() && (i' < i || j' < j) ==>
                      result.View().Get(i', j') == Mul(ProductSum(A, B, i', j', A.Cols()), 1.0)
        {
          var sum := 0.0;
          var k := 0;
          while k < a.Cols()
            invariant 0 <= k <= a.Cols()
            invariant sum == ProductSum(A, B, i, j, k)
          {
            sum := sum + Mul(a.At(i, k), b.At(k, j));
            k := k + 1;
          }
          var _ := result.Set(i, j, sum);
          j := j + 1;
        }
        i := i + 1;
      }
      r := Pass;
    }

    /** clear(): zeroes every cell. */
    method Clear()
      modifies data
      ensures data[..] == Zeros(data.Length)
    {
      var i := 0;
      while i < data.Length
        invariant 0 <= i <= data.Length
        invariant forall p :: 0 <= p < i ==> data[p] == 0.0
      {
        data[i] := 0.0;
        i := i + 1;
      }
    }

    /** set(Matrix): compares the PHYSICAL shapes and copies the raw buffer; the flag is not copied. */
    method SetFrom(matrix: Matrix) returns (r: Outcome)
      requires Valid() && matrix.Valid()
      modifies data
      ensures r.Pass? <==> rows == matrix.rows && cols == matrix.cols
      ensures r.Fail? ==> r.error == IllegalArgument && unchanged(data)
      ensures r.Pass? ==> data[..] == old(matrix.data[..])
    {
      if rows != matrix.rows || cols != matrix.cols {
        return Fail(IllegalArgument);
      }
      forall p | 0 <= p < data.Length {
        data[p] := matrix.data[p];
      }
      r := Pass;
    }

    /** multiply(float): scales every cell. */
    method Multiply(multiplier: real)
      modifies data
      ensures forall p :: 0 <= p < data.Length ==> data[p] == Mul(old(data[p]), multiplier)
    {
      var i := 0;
      while i < data.Length
        invariant 0 <= i <= data.Length
        invariant forall p :: 0 <= p < i ==> data[p] == Mul(old(data[p]), multiplier)
        invariant forall p :: i <= p < data.Length ==> data[p] == old(data[p])
      {
        data[i] := Mul(data[i], multiplier);
        i := i + 1;
      }
    }

    /** add(float): shifts every cell. */
    method Add(addend: real)
      modifies data
      ensures forall p :: 0 <= p < data.Length ==> data[p] == old(data[p]) + addend
    {
      var i := 0;
      while i < data.Length
        invariant 0 <= i <= data.Length
        invariant forall p :: 0 <= p < i ==> data[p] == old(data[p]) + addend
        invariant forall p :: i <= p < data.Length ==> data[p] == old(data[p])
      {
        data[i] := data[i] + addend;
        i := i + 1;
      }
    }

    /**
     * addBroadcasted: adds a 1 x cols() row vector to every row, else a rows() x 1 column vector to
     * every column, else a 1 x 1 scalar to every cell, tried in that order; any other shape throws.
     */
    method AddBroadcasted(broadcast: Matrix) returns (r: Outcome)
      requires Valid() && broadcast.Valid()
      requires broadcast.data != data
      modifies data
      ensures var B := broadcast.View();
        r.Fail? <==> !(B.Rows() == 1 && B.Cols() == Cols()) && !(B.Cols() == 1 && B.Rows() == Rows()) &&
                     !(B.Rows() == 1 && B.Cols() == 1)
      ensures r.Fail? ==> r.error == IllegalArgument && data[..] == old(data[..])
      ensures var B := broadcast.View();
        r.Pass? && B.Rows() == 1 && B.Cols() == Cols() ==>
          forall i, j :: 0 <= i < Rows() && 0 <= j < Cols() ==> View().Get(i, j) == old(View()).Get(i, j) + B.Get(0, j)
      ensures var B := broadcast.View();
        r.Pass? && !(B.Rows() == 1 && B.Cols() == Cols()) && B.Cols() == 1 && B.Rows() == Rows() ==>
          forall i, j :: 0 <= i < Rows() && 0 <= j < Cols() ==> View().Get(i, j) == old(View()).Get(i, j) + B.Get(i, 0)
      ensures var B := broadcast.View();
        r.Pass? && !(B.Rows() == 1 && B.Cols() == Cols()) && !(B.Cols() == 1 && B.Rows() == Rows()) ==>
          B.Rows() == 1 && B.Cols() == 1 &&
          forall p :: 0 <= p < data.Length ==> data[p] == old(data[p]) + B.Get(0, 0)
    {
      if broadcast.Rows() == 1 && broadcast.Cols() == Cols() {
        AddRowVector(broadcast);
        r := Pass;
      } else if broadcast.Cols() == 1 && broadcast.Rows() == Rows() {
        AddColumnVector(broadcast);
        r := Pass;
      } else if broadcast.Rows() == 1 && broadcast.Cols() == 1 {
        var addend := broadcast.At(0, 0);
        Add(addend);
        r := Pass;
      } else {
        r := Fail(IllegalArgument);
      }
    }

    /** The row-vector case of addBroadcasted: adds broadcast's row to every row. */
    method AddRowVector(broadcast: Matrix)
      requires Valid() && broadcast.Valid()
      requires broadcast.data != data
      requires broadcast.Rows() == 1 && broadcast.Cols() == Cols()
      modifies data
      ensures forall i, j :: 0 <= i < Rows() && 0 <= j < Cols() ==>
                View().Get(i, j) == old(View()).Get(i, j) + broadcast.View().Get(0, j)
    {
      ghost var before := View();
      ghost var B := broadcast.View();
      var i := 0;
      while i < Rows()
        invariant 0 <= i <= Rows()
        invariant forall i', j' :: 0 <= i' < Rows() && 0 <= j' < Cols() ==>
                    View().Get(i', j') == before.Get(i', j') + (if i' < i then B.Get(0, j') else 0.0)
      {
        var j := 0;
        while j < Cols()
          invariant 0 <= j <= Cols()
          invariant forall i', j' :: 0 <= i' < Rows() && 0 <= j' < Cols() ==>
                      View().Get(i', j') == before.Get(i', j') + (if i' < i || (i' == i && j' < j) then B.Get(0, j') else 0.0)
        {
          var _ := Set(i, j, At(i, j) + broadcast.At(0, j));
          j := j + 1;
        }
        i := i + 1;
      }
    }

    /** The column-vector case of addBroadcasted: adds broadcast's column to every column. */
    method AddColumnVector(broadcast: Matrix)
      requires Valid() && broadcast.Valid()
      requires broadcast.data != data
      requires broadcast.Cols() == 1 && broadcast.Rows() == Rows()
      modifies data
      ensures forall i, j :: 0 <= i < Rows() && 0 <= j < Cols() ==>
                View().Get(i, j) == old(View()).Get(i, j) + broadcast.View().Get(i, 0)
    {
      ghost var before := View();
      ghost var B := broadcast.View();
      var i := 0;
      while i < Rows()
        invariant 0 <= i <= Rows()
        invariant forall i', j' :: 0 <= i' < Rows() && 0 <= j' < Cols() ==>
                    View().Get(i', j') == before.Get(i', j') + (if i' < i then B.Get(i', 0) else 0.0)
      {
        var j := 0;
        while j < Cols()
          invariant 0 <= j <= Cols()
          invariant forall i', j' :: 0 <= i' < Rows() && 0 <= j' < Cols() ==>
                      View().Get(i', j') == before.Get(i', j') + (if i' < i || (i' == i && j' < j) then B.Get(i', 0) else 0.0)
        {
          var _ := Set(i, j, At(i, j) + broadcast.At(i, 0));
          j := j + 1;
        }
        i := i + 1;
      }
    }

    /** hadamardProduct(a, b): a := a ⊙ b after checking that the logical shapes agree. */
    static method HadamardProduct(a: Matrix, b: Matrix) returns (r: Outcome)
      requires a.Valid() && b.Valid()
      requires a.data != b.data
      modifies a.data
      ensures r.Fail? <==> a.Rows() != b.Rows() || a.Cols() != b.Cols()
      ensures r.Fail? ==> r.error == IllegalArgument && a.data[..] == old(a.data[..])
      ensures r.Pass? ==> forall i, j :: 0 <= i < a.Rows() && 0 <= j < a.Cols() ==>
                a.View().Get(i, j) == Mul(old(a.View()).Get(i, j), b.View().Get(i, j))
    {
      if a.Rows() != b.Rows() || a.Cols() != b.Cols() {
        return Fail(IllegalArgument);
      }
      ghost var before := a.View();
      ghost var B := b.View();
      var i := 0;
      while i < a.Rows()
        invariant 0 <= i <= a.Rows()
        invariant forall i', j' :: 0 <= i' < a.Rows() && 0 <= j' < a.Cols() ==>
                    a.View().Get(i', j') == if i' < i then Mul(before.Get(i', j'), B.Get(i', j')) else before.Get(i', j')
      {
        var j := 0;
        while j < a.Cols()
          invariant 0 <= j <= a.Cols()
          invariant forall i', j' :: 0 <= i' < a.Rows() && 0 <= j' < a.Cols() ==>
                      a.View().Get(i', j') == if i' < i || (i' == i && j' < j) then Mul(before.Get(i', j'), B.Get(i', j')) else before.Get(i', j')
        {
          var x, y := a.At(i, j), b.At(i, j);
          var _ := a.Set(i, j, Mul(x, y));
          j := j + 1;
        }
        i := i + 1;
      }
      r := Pass;
    }

    /** deepClone: null entries stay null, every other entry becomes a fresh copy. */
    static method DeepClone(matrixArray: seq<Matrix?>) returns (cloned: seq<Matrix?>)
      requires forall k :: 0 <= k < |matrixArray| && matrixArray[k] != null ==> matrixArray[k].Valid()
      ensures |cloned| == |matrixArray|
      ensures forall k :: 0 <= k < |cloned| ==> (cloned[k] == null <==> matrixArray[k] == null)
      ensures forall k :: 0 <= k < |cloned| && cloned[k] != null ==>
                fresh(cloned[k]) && fresh(cloned[k].data) && cloned[k].Valid() &&
                cloned[k].rows == matrixArray[k].rows && cloned[k].cols == matrixArray[k].cols &&
                cloned[k].transposed == matrixArray[k].transposed && cloned[k].data[..] == matrixArray[k].data[..]
      ensures forall k, k' :: 0 <= k < k' < |cloned| && cloned[k] != null && cloned[k'] != null ==>
                cloned[k].data != cloned[k'].data
    {
      cloned := [];
      var i := 0;
      while i < |matrixArray|
        invariant 0 <= i <= |matrixArray| && |cloned| == i
        invariant forall k :: 0 <= k < i ==> (cloned[k] == null <==> matrixArray[k] == null)
        invariant forall k :: 0 <= k < i && cloned[k] != null ==>
                    fresh(cloned[k]) && fresh(cloned[k].data) && cloned[k].Valid() &&
                    cloned[k].rows == matrixArray[k].rows && cloned[k].cols == matrixArray[k].cols &&
                    cloned[k].transposed == matrixArray[k].transposed && cloned[k].data[..] == matrixArray[k].data[..]
        invariant forall k, k' :: 0 <= k < k' < i && cloned[k] != null && cloned[k'] != null ==>
                    cloned[k].data != cloned[k'].data
      {
        if matrixArray[i] == null {
          cloned := cloned + [null];
        } else {
          var copy := new Matrix.Copy(matrixArray[i]);
          cloned := cloned + [copy];
        }
        i := i + 1;
      }
    }

    /** copyOf(matrix, newRows, newCols): the top-left newRows x newCols block, read through get. */
    static method CopyOf(matrix: Matrix, newRows: nat, newCols: nat) returns (r: Result<Matrix>)
      requires matrix.Valid()
      ensures r.Ok? <==> newRows == 0 || newCols == 0 || (newRows <= matrix.Rows() && newCols <= matrix.Cols())
      ensures r.Err? ==> r.error == IndexOutOfBounds
      ensures r.Ok? ==> var copy := r.value;
                fresh(copy) && fresh(copy.data) && copy.Valid() && !copy.transposed &&
                copy.rows == newRows && copy.cols == newCols &&
                forall i, j :: 0 <= i < newRows && 0 <= j < newCols ==> copy.View().Get(i, j) == matrix.View().Get(i, j)
    {
      var copy := new Matrix(newRows, newCols);
      var i := 0;
      while i < newRows
        invariant 0 <= i <= newRows
        invariant fresh(copy) && fresh(copy.data) && !copy.transposed
        invariant 0 < i && 0 < newCols ==> i <= matrix.Rows() && newCols <= matrix.Cols()
        invariant forall i', j' :: 0 <= i' < i && 0 <= j' < newCols ==> copy.View().Get(i', j') == matrix.View().Get(i', j')
      {
        var j := 0;
        while j < newCols
          invariant 0 <= j <= newCols
          invariant fresh(copy) && fresh(copy.data) && !copy.transposed
          invariant 0 < j ==> i < matrix.Rows() && j <= matrix.Cols()
          invariant 0 < i && 0 < newCols ==> i <= matrix.Rows() && newCols <= matrix.Cols()
          invariant forall i', j' :: 0 <= i' <= i && 0 <= j' < newCols && (i' < i || j' < j) ==>
                      copy.View().Get(i', j') == matrix.View().Get(i', j')
        {
          var x := matrix.Get(i, j);
          if x.Err? {
            return Err(x.error);
          }
          var _ := copy.Set(i, j, x.value);
          j := j + 1;
        }
        i := i + 1;
      }
      r := Ok(copy);
    }

    /** emptyCopyOf(matrix): a fresh zero matrix of the same LOGICAL shape, not transposed. */
    static method EmptyCopyOf(matrix: Matrix) returns (copy: Matrix)
      ensures fresh(copy) && fresh(copy.data) && copy.Valid() && !copy.transposed
      ensures copy.rows == matrix.Rows() && copy.cols == matrix.Cols()
      ensures copy.data[..] == Zeros(copy.data.Length)
    {
      copy := new Matrix(matrix.Rows(), matrix.Cols());
    }

    /** sumOfCols(out): out(i, 0) := Σ_j get(i, j), after checking that out is rows() x 1. */
    method SumOfCols(out: Matrix) returns (r: Outcome)
      requires Valid() && out.Valid()
      requires out.data != data
      modifies out.data
      ensures r.Fail? <==> out.Cols() != 1 || out.Rows() != Rows()
      ensures r.Fail? ==> r.error == IllegalArgument && out.data[..] == old(out.data[..])
      ensures r.Pass? ==> forall i :: 0 <= i < Rows() ==> out.View().Get(i, 0) == RowSum(View(), i, Cols())
    {
      if out.Cols() != 1 || out.Rows() != Rows() {
        return Fail(IllegalArgument);
      }
      out.Clear();
      var M := View();
      var i := 0;
      while i < Rows()
        invariant 0 <= i <= Rows()
        invariant forall i' :: 0 <= i' < i ==> out.View().Get(i', 0) == RowSum(M, i', M.Cols())
      {
        var s := 0.0;
        var j := 0;
        while j < Cols()
          invariant 0 <= j <= Cols()
          invariant s == RowSum(M, i, j)
        {
          s := s + At(i, j);
          j := j + 1;
        }
        var _ := out.Set(i, 0, s);
        i := i + 1;
      }
      r := Pass;
    }
  }

  /** M is a rows x cols matrix, not transposed, with a full buffer. */
  predicate Shaped(M: Matrix, rows: nat, cols: nat)
    reads M
  {
    M.rows == rows && M.cols == cols && !M.transposed && M.Valid()
  }
}
