/**
 * The value of a Matrix at one moment: its physical shape, its flat row-major data and its
 * transpose flag, with the logical (post-transpose) shape and addressing derived from them.
 * Everything here is pure; the class Matrix states its contracts in these terms.
 */
module Dense {
  import N = Numerics

  /** a < b and c < d give a * d + c < b * d: row-major offsets stay inside the buffer. */
  lemma {:induction false} OffsetBelow(a: nat, b: nat, c: nat, d: nat)
    requires a < b && c < d
    ensures a * d + c < b * d
  {
    var k: nat := b - (a + 1);
    assert b * d == a * d + d + k * d;
    assert k * d >= 0;
  }

  /** Row-major offsets with the same stride and columns below the stride are distinct. */
  lemma {:induction false} OffsetInjective(a1: nat, c1: nat, a2: nat, c2: nat, d: nat)
    requires c1 < d && c2 < d
    requires a1 * d + c1 == a2 * d + c2
    ensures a1 == a2 && c1 == c2
  {
    if a1 < a2 {
      OffsetBelow(a1, a2, c1, d);
      assert false;
    } else if a2 < a1 {
      OffsetBelow(a2, a1, c2, d);
      assert false;
    }
  }

  /** Physical position of logical cell (row, col), given the flag and the physical column count. */
  function Index(transposed: bool, cols: nat, row: nat, col: nat): nat
  {
    if transposed then col * cols + row else row * cols + col
  }

  datatype Mat = Mat(rows: nat, cols: nat, transposed: bool, data: seq<real>) {

    /** The buffer holds rows * cols cells. */
    predicate Valid()
    {
      |data| == rows * cols
    }

    /** Logical row count. */
    function Rows(): nat
    {
      if transposed then cols else rows
    }

    /** Logical column count. */
    function Cols(): nat
    {
      if transposed then rows else cols
    }

    /** Logical cell (row, col) lies in the physical buffer. */
    function Offset(row: nat, col: nat): (p: nat)
      requires row < Rows() && col < Cols()
      ensures p < rows * cols
      ensures p == Index(transposed, cols, row, col)
    {
      assert Index(transposed, cols, row, col) < rows * cols by {
        if transposed { OffsetBelow(col, rows, row, cols); } else { OffsetBelow(row, rows, col, cols); }
      }
      Index(transposed, cols, row, col)
    }

    /** Element (row, col) of the logical view. */
    function Get(row: nat, col: nat): real
      requires Valid() && row < Rows() && col < Cols()
    {
      data[Offset(row, col)]
    }

    /** The same buffer read through the other orientation. */
    function Transposed(): (t: Mat)
      ensures t.Valid() == Valid() && t.Rows() == Cols() && t.Cols() == Rows()
    {
      this.(transposed := !transposed)
    }

    /** The logical cell stored at physical position p: the inverse of Offset. */
    function Coords(p: nat): (rc: (nat, nat))
      requires p < rows * cols
      ensures rc.0 < Rows() && rc.1 < Cols()
      ensures Offset(rc.0, rc.1) == p
    {
      var q, r := p / cols, p % cols;
      assert q * cols + r == p;
      assert q < rows;
      if transposed then (r, q) else (q, r)
    }

    /** Same shape, layout and flag: the two values address their buffers alike. */
    predicate SameLayout(other: Mat)
    {
      rows == other.rows && cols == other.cols && transposed == other.transposed
    }
  }

  /** A zero-filled n-cell buffer. */
  function Zeros(n: nat): (z: seq<real>)
    ensures |z| == n && forall p :: 0 <= p < n ==> z[p] == 0.0
  {
    seq(n, _ => 0.0)
  }

  /** Offset is one-to-one on the logical index space. */
  lemma IndexInjective(M: Mat, r1: nat, c1: nat, r2: nat, c2: nat)
    requires r1 < M.Rows() && c1 < M.Cols() && r2 < M.Rows() && c2 < M.Cols()
    requires M.Offset(r1, c1) == M.Offset(r2, c2)
    ensures r1 == r2 && c1 == c2
  {
    if M.transposed {
      OffsetInjective(c1, r1, c2, r2, M.cols);
    } else {
      OffsetInjective(r1, c1, r2, c2, M.cols);
    }
  }

  /** Offset maps the logical index space onto [0, rows * cols): Coords undoes it. */
  lemma CoordsOfOffset(M: Mat, r: nat, c: nat)
    requires r < M.Rows() && c < M.Cols()
    ensures M.Coords(M.Offset(r, c)) == (r, c)
  {
    var rc := M.Coords(M.Offset(r, c));
    IndexInjective(M, rc.0, rc.1, r, c);
  }

  /** Transposing twice restores the view; one transpose swaps the coordinates. */
  lemma TransposedGet(M: Mat, r: nat, c: nat)
    requires M.Valid() && r < M.Cols() && c < M.Rows()
    ensures M.Transposed().Transposed() == M
    ensures M.Transposed().Get(r, c) == M.Get(c, r)
  {
  }

  /** Two buffers with one layout are equal when every logical cell is. */
  lemma {:induction false} ViewsEqual(A: Mat, B: Mat)
    requires A.Valid() && B.Valid() && A.SameLayout(B)
    requires forall i, j :: 0 <= i < A.Rows() && 0 <= j < A.Cols() ==> A.Get(i, j) == B.Get(i, j)
    ensures A.data == B.data
  {
    forall p | 0 <= p < |A.data|
      ensures A.data[p] == B.data[p]
    {
      var rc := A.Coords(p);
      assert A.Get(rc.0, rc.1) == B.Get(rc.0, rc.1);
    }
  }

  /** Σ_{t<k} A(i, t) · B(t, j), accumulated in index order as Matrix.dot does. */
  function ProductSum(A: Mat, B: Mat, i: nat, j: nat, k: nat): real
    requires A.Valid() && B.Valid()
    requires i < A.Rows() && j < B.Cols() && k <= A.Cols() && k <= B.Rows()
  {
    if k == 0 then 0.0 else ProductSum(A, B, i, j, k - 1) + N.Mul(A.Get(i, k - 1), B.Get(k - 1, j))
  }

  /** Σ_{t<k} A(i, t): the row sums of Matrix.sumOfCols. */
  function RowSum(A: Mat, i: nat, k: nat): real
    requires A.Valid() && i < A.Rows() && k <= A.Cols()
  {
    if k == 0 then 0.0 else RowSum(A, i, k - 1) + A.Get(i, k - 1)
  }

  /** C holds the product A · B, scaled by s. */
  predicate IsScaledProduct(C: Mat, A: Mat, B: Mat, s: real)
    requires C.Valid() && A.Valid() && B.Valid()
  {
    A.Cols() == B.Rows() && C.Rows() == A.Rows() && C.Cols() == B.Cols() &&
    forall i, j :: 0 <= i < C.Rows() && 0 <= j < C.Cols() ==> C.Get(i, j) == N.Mul(ProductSum(A, B, i, j, A.Cols()), s)
  }

  /** C holds the product A · B. */
  predicate IsProduct(C: Mat, A: Mat, B: Mat)
    requires C.Valid() && A.Valid() && B.Valid()
  {
    IsScaledProduct(C, A, B, 1.0)
  }

  /** (A · B)ᵀ = Bᵀ · Aᵀ, term by term. */
  lemma {:induction false} ProductTransposed(A: Mat, B: Mat, i: nat, j: nat, k: nat)
    requires A.Valid() && B.Valid()
    requires i < A.Rows() && j < B.Cols() && k <= A.Cols() && k <= B.Rows()
    ensures ProductSum(A, B, i, j, k) == ProductSum(B.Transposed(), A.Transposed(), j, i, k)
  {
    if k > 0 {
      ProductTransposed(A, B, i, j, k - 1);
      TransposedGet(A, k - 1, i);
      TransposedGet(B, j, k - 1);
    }
  }

  /** A product with an all-ones factor is a row sum: sumOfCols is a product with a ones column. */
  lemma {:induction false} RowSumIsProductWithOnes(A: Mat, Ones: Mat, i: nat, k: nat)
    requires A.Valid() && Ones.Valid() && i < A.Rows() && k <= A.Cols() && k <= Ones.Rows() && Ones.Cols() > 0
    requires forall t :: 0 <= t < Ones.Rows() ==> Ones.Get(t, 0) == 1.0
    ensures RowSum(A, i, k) == ProductSum(A, Ones, i, 0, k)
  {
    if k > 0 {
      RowSumIsProductWithOnes(A, Ones, i, k - 1);
    }
  }

  /** With all-ones factors every entry of the product is the inner dimension. */
  lemma {:induction false} ProductOfOnes(A: Mat, B: Mat, i: nat, j: nat, k: nat)
    requires A.Valid() && B.Valid()
    requires i < A.Rows() && j < B.Cols() && k <= A.Cols() && k <= B.Rows()
    requires forall p :: 0 <= p < |A.data| ==> A.data[p] == 1.0
    requires forall p :: 0 <= p < |B.data| ==> B.data[p] == 1.0
    ensures ProductSum(A, B, i, j, k) == k as real
  {
    if k > 0 {
      ProductOfOnes(A, B, i, j, k - 1);
    }
  }

  /** The row-major grid of the product A · B. */
  function Product(A: Mat, B: Mat): (C: Mat)
    requires A.Valid() && B.Valid() && A.Cols() == B.Rows()
    ensures C.Valid() && !C.transposed && C.rows == A.Rows() && C.cols == B.Cols()
  {
    var r, c := A.Rows(), B.Cols();
    var grid := Mat(r, c, false, []);
    Mat(r, c, false, seq(r * c, p requires 0 <= p < r * c =>
      var rc := grid.Coords(p);
      ProductSum(A, B, rc.0, rc.1, A.Cols())))
  }

  /** Cell (i, j) of Product is the dot product of row i of A with column j of B. */
  lemma ProductGet(A: Mat, B: Mat, i: nat, j: nat)
    requires A.Valid() && B.Valid() && A.Cols() == B.Rows() && i < A.Rows() && j < B.Cols()
    ensures Product(A, B).Get(i, j) == ProductSum(A, B, i, j, A.Cols())
  {
    var grid := Mat(A.Rows(), B.Cols(), false, []);
    CoordsOfOffset(grid, i, j);
  }

  /** A non-transposed buffer that holds the product A · B is the product grid. */
  lemma ProductEquals(C: Mat, A: Mat, B: Mat)
    requires C.Valid() && A.Valid() && B.Valid() && IsProduct(C, A, B)
    requires !C.transposed && C.rows == A.Rows() && C.cols == B.Cols()
    ensures C == Product(A, B)
  {
    var P := Product(A, B);
    forall i, j | 0 <= i < C.Rows() && 0 <= j < C.Cols()
      ensures C.Get(i, j) == P.Get(i, j)
    {
      ProductGet(A, B, i, j);
    }
    ViewsEqual(C, P);
  }

  /** Every cell of the buffer multiplied by s, as Matrix.multiply does. */
  function Scaled(M: Mat, s: real): (S: Mat)
    ensures S.rows == M.rows && S.cols == M.cols && S.transposed == M.transposed && |S.data| == |M.data|
    ensures forall p :: 0 <= p < |M.data| ==> S.data[p] == N.Mul(M.data[p], s)
  {
    M.(data := seq(|M.data|, p requires 0 <= p < |M.data| => N.Mul(M.data[p], s)))
  }

  /** The column of row sums of A, as Matrix.sumOfCols leaves it. */
  function RowSums(A: Mat): (S: Mat)
    requires A.Valid()
    ensures S.Valid() && !S.transposed && S.rows == A.Rows() && S.cols == 1
    ensures forall i :: 0 <= i < A.Rows() ==> S.Get(i, 0) == RowSum(A, i, A.Cols())
  {
    Mat(A.Rows(), 1, false, seq(A.Rows(), i requires 0 <= i < A.Rows() => RowSum(A, i, A.Cols())))
  }
}
