/**
 * LossFunction.java: softmax cross-entropy and binary cross-entropy, per example (the Impl
 * methods on plain arrays) and per batch (getError and getLoss on matrices whose columns are
 * the examples).
 */
module Losses {
  import opened Errors
  import opened Numerics
  import opened Dense
  import opened Matrices
  import A = Activations

  /** BINARY_CROSS_ENTROPY_LOSS.EPSILON: predictions are clamped this far from 0 and 1. */
  const EPSILON: real := 0.0000001

  /** Clamps a predicted probability into [EPSILON, 1 - EPSILON] before taking logarithms. */
  function Clamp(yHat: real): (c: real)
    ensures EPSILON <= c <= 1.0 - EPSILON
    ensures EPSILON <= yHat <= 1.0 - EPSILON ==> c == yHat
    ensures c != yHat ==> (yHat < EPSILON && c == EPSILON) || (yHat > 1.0 - EPSILON && c == 1.0 - EPSILON)
  {
    if yHat < EPSILON then EPSILON
    else if yHat > 1.0 - EPSILON then 1.0 - EPSILON
    else yHat
  }

  /** Σ over the classes t marks with exactly 1 of -log(p[i]), subtracted in index order. */
  function NegLogLikelihood(p: seq<real>, t: seq<real>, k: nat): real
    requires k <= |p| && k <= |t|
  {
    if k == 0 then 0.0
    else NegLogLikelihood(p, t, k - 1) - (if t[k - 1] == 1.0 then Log(p[k - 1]) else 0.0)
  }

  /** With no class of t marked by exactly 1 among the first k, nothing is subtracted. */
  lemma {:induction false} NegLogLikelihoodUnmarked(p: seq<real>, t: seq<real>, k: nat)
    requires k <= |p| && k <= |t|
    ensures (forall i :: 0 <= i < k ==> t[i] != 1.0) ==> NegLogLikelihood(p, t, k) == 0.0
  {
    if k > 0 {
      NegLogLikelihoodUnmarked(p, t, k - 1);
    }
  }

  /** t marks class c alone. */
  predicate OneHot(t: seq<real>, c: nat)
  {
    c < |t| && forall i :: 0 <= i < |t| ==> t[i] == (if i == c then 1.0 else 0.0)
  }

  /** Column b of M, rows 0 to n - 1. */
  function Column(M: Mat, b: nat, n: nat): (col: seq<real>)
    requires M.Valid() && n <= M.Rows() && (n > 0 ==> b < M.Cols())
    ensures |col| == n && forall i :: 0 <= i < n ==> col[i] == M.Get(i, b)
  {
    seq(n, i requires 0 <= i < n => M.Get(i, b))
  }

  datatype Loss = SoftMaxCrossEntropy | BinaryCrossEntropy {

    /** The example shape the loss can read: binary cross-entropy reads element 0. */
    predicate Readable(n: nat)
    {
      SoftMaxCrossEntropy? || n > 0
    }

    /**
     * The contents of out after getErrorImpl(output, target, out): softmax(output) - target for
     * softmax cross-entropy; for binary cross-entropy only out[0] is written, with
     * sigmoid(output[0]) - target[0].
     */
    function ErrorOf(output: seq<real>, target: seq<real>, out: seq<real>): (e: seq<real>)
      requires |output| == |target| == |out| && Readable(|output|)
      ensures |e| == |out|
      ensures SoftMaxCrossEntropy? ==> forall i :: 0 <= i < |e| ==> e[i] + target[i] > 0.0
      ensures BinaryCrossEntropy? ==> e[1..] == out[1..] && 0.0 < e[0] + target[0] < 1.0
    {
      match this
      case SoftMaxCrossEntropy =>
        var p := A.Softmax(output);
        A.SoftmaxPositive(output);
        seq(|output|, i requires 0 <= i < |output| => p[i] - target[i])
      case BinaryCrossEntropy => out[0 := Sigmoid(output[0]) - target[0]]
    }

    /**
     * getLossImpl(output, target): -Σ log softmax(output)[i] over the classes whose target is
     * exactly 1, or the binary cross-entropy of the clamped sigmoid of output[0].
     */
    function LossOf(output: seq<real>, target: seq<real>): (loss: real)
      requires |output| == |target| && Readable(|output|)
      ensures SoftMaxCrossEntropy? && (forall i :: 0 <= i < |target| ==> target[i] != 1.0) ==> loss == 0.0
      ensures BinaryCrossEntropy? && target[0] == 1.0 ==> loss == -Log(Clamp(Sigmoid(output[0])))
      ensures BinaryCrossEntropy? && target[0] == 0.0 ==> loss == -Log(1.0 - Clamp(Sigmoid(output[0])))
    {
      match this
      case SoftMaxCrossEntropy =>
        NegLogLikelihoodUnmarked(A.Softmax(output), target, |output|);
        NegLogLikelihood(A.Softmax(output), target, |output|)
      case BinaryCrossEntropy =>
        var y := target[0];
        var yHat := Clamp(Sigmoid(output[0]));
        -(y * Log(yHat) + (1.0 - y) * Log(1.0 - yHat))
    }

    /** The error getError leaves in column b of a batch that passes its reads. */
    function ColumnError(O: Mat, T: Mat, b: nat): seq<real>
      requires O.Valid() && T.Valid() && b < O.Cols() && O.Rows() <= T.Rows()
      requires O.Rows() > 0 ==> b < T.Cols()
      requires Readable(O.Rows())
    {
      ErrorOf(Column(O, b, O.Rows()), Column(T, b, O.Rows()), Zeros(O.Rows()))
    }

    /** The per-column losses of the first k columns of a batch. */
    function ColumnLosses(O: Mat, T: Mat, k: nat): (losses: seq<real>)
      requires O.Valid() && T.Valid() && O.Rows() == T.Rows() && O.Cols() == T.Cols()
      requires k <= O.Cols() && (k > 0 ==> Readable(O.Rows()))
      ensures |losses| == k
      ensures forall b :: 0 <= b < k ==> losses[b] == LossOf(Column(O, b, O.Rows()), Column(T, b, O.Rows()))
    {
      seq(k, b requires 0 <= b < k => LossOf(Column(O, b, O.Rows()), Column(T, b, O.Rows())))
    }

    /** Adding column k's loss to the sum of the first k gives the sum of the first k + 1. */
    lemma ColumnLossesExtended(O: Mat, T: Mat, k: nat)
      requires O.Valid() && T.Valid() && O.Rows() == T.Rows() && O.Cols() == T.Cols()
      requires k < O.Cols() && Readable(O.Rows())
      ensures Sum(ColumnLosses(O, T, k + 1)) ==
              Sum(ColumnLosses(O, T, k)) + LossOf(Column(O, k, O.Rows()), Column(T, k, O.Rows()))
    {
      assert ColumnLosses(O, T, k + 1)[..k] == ColumnLosses(O, T, k);
    }

    /**
     * getErrorImpl applied to a column whose buffer is what getError's errorArr can hold at
     * that point (for binary cross-entropy, zero past index 0) gives ColumnError.
     */
    lemma ErrorOfColumn(O: Mat, T: Mat, b: nat, before: seq<real>)
      requires O.Valid() && T.Valid() && b < O.Cols() && O.Rows() <= T.Rows()
      requires O.Rows() > 0 ==> b < T.Cols()
      requires Readable(O.Rows()) && |before| == O.Rows()
      requires BinaryCrossEntropy? ==> forall k :: 1 <= k < |before| ==> before[k] == 0.0
      ensures ErrorOf(Column(O, b, O.Rows()), Column(T, b, O.Rows()), before) == ColumnError(O, T, b)
    {
      if BinaryCrossEntropy? {
        assert before[1..] == Zeros(O.Rows())[1..];
      }
    }

    /**
     * The batches getError fills without an exception: no columns, or an empty column the loss
     * can read, or targets and error at least as large as the output.
     */
    predicate ErrorWritable(O: Mat, T: Mat, E: Mat)
    {
      O.Cols() == 0 ||
      (O.Rows() == 0 && SoftMaxCrossEntropy?) ||
      (O.Rows() > 0 && O.Rows() <= T.Rows() && O.Cols() <= T.Cols() && O.Rows() <= E.Rows() && O.Cols() <= E.Cols())
    }

    /** The error of a whole batch, as a row-major grid of the output's shape. */
    function ErrorGrid(O: Mat, T: Mat): (E: Mat)
      requires O.Valid() && T.Valid() && O.Rows() <= T.Rows() && O.Cols() <= T.Cols()
      requires O.Cols() > 0 ==> Readable(O.Rows())
      ensures E.Valid() && !E.transposed && E.rows == O.Rows() && E.cols == O.Cols()
    {
      var r, c := O.Rows(), O.Cols();
      var grid := Mat(r, c, false, []);
      Mat(r, c, false, seq(r * c, p requires 0 <= p < r * c =>
        var rc := grid.Coords(p);
        ColumnError(O, T, rc.1)[rc.0]))
    }

    /** An error buffer of the output's shape that holds every column's error is the error grid. */
    lemma ErrorGridFilled(E: Mat, O: Mat, T: Mat)
      requires O.Valid() && T.Valid() && O.Rows() <= T.Rows() && O.Cols() <= T.Cols()
      requires O.Cols() > 0 ==> Readable(O.Rows())
      requires E.Valid() && !E.transposed && E.rows == O.Rows() && E.cols == O.Cols()
      requires forall i, b :: 0 <= i < E.Rows() && 0 <= b < E.Cols() ==> E.Get(i, b) == ColumnError(O, T, b)[i]
      ensures E == ErrorGrid(O, T)
    {
      var G := ErrorGrid(O, T);
      var grid := Mat(O.Rows(), O.Cols(), false, []);
      forall i, b | 0 <= i < E.Rows() && 0 <= b < E.Cols()
        ensures E.Get(i, b) == G.Get(i, b)
      {
        CoordsOfOffset(grid, i, b);
      }
      ViewsEqual(E, G);
    }

    /** getErrorImpl(output, target, out); binary cross-entropy throws on an empty example. */
    method GetErrorImpl(output: array<real>, target: array<real>, out: array<real>) returns (r: Outcome)
      requires output.Length == target.Length == out.Length
      requires out != output && out != target
      modifies out
      ensures r.Fail? <==> !Readable(output.Length)
      ensures r.Fail? ==> r.error == IndexOutOfBounds && out[..] == old(out[..])
      ensures r.Pass? ==> out[..] == ErrorOf(output[..], target[..], old(out[..]))
    {
      match this
      case SoftMaxCrossEntropy =>
        SoftmaxCrossEntropyError(output, target, out);
        r := Pass;
      case BinaryCrossEntropy =>
        if output.Length == 0 {
          return Fail(IndexOutOfBounds);
        }
        var z := output[0];
        var y := target[0];
        var yHat := Sigmoid(z);
        out[0] := yHat - y;
        r := Pass;
    }

    /** getLossImpl(output, target); binary cross-entropy throws on an empty example. */
    method GetLossImpl(output: array<real>, target: array<real>) returns (r: Result<real>)
      requires output.Length == target.Length
      ensures r.Err? <==> !Readable(output.Length)
      ensures r.Err? ==> r.error == IndexOutOfBounds
      ensures r.Ok? ==> r.value == LossOf(output[..], target[..])
    {
      match this
      case SoftMaxCrossEntropy =>
        var loss := SoftmaxCrossEntropyLoss(output, target);
        r := Ok(loss);
      case BinaryCrossEntropy =>
        if output.Length == 0 {
          return Err(IndexOutOfBounds);
        }
        var z := output[0];
        var y := target[0];
        var yHat := Sigmoid(z);
        if yHat < EPSILON {
          yHat := EPSILON;
        } else if yHat > 1.0 - EPSILON {
          yHat := 1.0 - EPSILON;
        }
        r := Ok(-(y * Log(yHat) + (1.0 - y) * Log(1.0 - yHat)));
    }

    /**
     * getError(output, target, error): column by column, copies output and target into arrays,
     * runs getErrorImpl and writes the first output.rows() entries back into error. There is
     * no shape check: a target or error too small, or an empty example under binary
     * cross-entropy, throws IndexOutOfBounds part way through.
     */
    method GetError(output: Matrix, target: Matrix, error: Matrix) returns (r: Outcome)
      requires output.Valid() && target.Valid() && error.Valid()
      requires error.data != output.data && error.data != target.data
      modifies error.data
      ensures r.Pass? <==> ErrorWritable(output.View(), target.View(), old(error.View()))
      ensures r.Fail? ==> r.error == IndexOutOfBounds
      ensures r.Pass? ==> forall i, b :: 0 <= i < error.Rows() && 0 <= b < error.Cols() ==>
                error.View().Get(i, b) ==
                  if i < output.Rows() && b < output.Cols() then ColumnError(output.View(), target.View(), b)[i]
                  else old(error.View()).Get(i, b)
    {
      var numClasses := output.Rows();
      var batchSize := output.Cols();
      var outputArr := new real[numClasses];
      var targetArr := new real[numClasses];
      var errorArr := new real[numClasses](_ => 0.0);
      ghost var O, T, E0 := output.View(), target.View(), error.View();
      var batch := 0;
      while batch < batchSize
        invariant 0 <= batch <= batchSize
        invariant output.View() == O && target.View() == T && error.Valid()
        invariant batch > 0 ==> Readable(numClasses)
        invariant batch > 0 && numClasses > 0 ==>
                    numClasses <= T.Rows() && batch <= T.Cols() && numClasses <= E0.Rows() && batch <= E0.Cols()
        invariant BinaryCrossEntropy? ==> forall k :: 1 <= k < numClasses ==> errorArr[k] == 0.0
        invariant forall i, b :: 0 <= i < error.Rows() && 0 <= b < error.Cols() ==>
                    error.View().Get(i, b) ==
                      if i < numClasses && b < batch then ColumnError(O, T, b)[i] else E0.Get(i, b)
      {
        var fill := FillColumn(output, target, error, batch, outputArr, targetArr, errorArr);
        if fill.Fail? {
          return fill;
        }
        batch := batch + 1;
      }
      r := Pass;
    }

    /** One iteration of getError's loop: read column batch, run getErrorImpl, write it back. */
    method FillColumn(output: Matrix, target: Matrix, error: Matrix, batch: nat,
                      outputArr: array<real>, targetArr: array<real>, errorArr: array<real>) returns (r: Outcome)
      requires output.Valid() && target.Valid() && error.Valid()
      requires error.data != output.data && error.data != target.data
      requires batch < output.Cols()
      requires outputArr.Length == targetArr.Length == errorArr.Length == output.Rows()
      requires outputArr != targetArr && errorArr != outputArr && errorArr != targetArr
      requires outputArr != output.data && outputArr != target.data && outputArr != error.data
      requires targetArr != output.data && targetArr != target.data && targetArr != error.data
      requires errorArr != output.data && errorArr != target.data && errorArr != error.data
      requires BinaryCrossEntropy? ==> forall k :: 1 <= k < errorArr.Length ==> errorArr[k] == 0.0
      modifies outputArr, targetArr, errorArr, error.data
      ensures r.Fail? <==>
                !Readable(output.Rows()) ||
                (output.Rows() > 0 && (batch >= target.Cols() || output.Rows() > target.Rows() ||
                                       batch >= error.Cols() || output.Rows() > error.Rows()))
      ensures r.Fail? ==> r.error == IndexOutOfBounds
      ensures BinaryCrossEntropy? ==> forall k :: 1 <= k < errorArr.Length ==> errorArr[k] == 0.0
      ensures r.Pass? ==> Readable(output.Rows()) && output.Rows() <= target.Rows() &&
                          (output.Rows() > 0 ==> batch < target.Cols())
      ensures r.Pass? ==> forall i, b :: 0 <= i < error.Rows() && 0 <= b < error.Cols() ==>
                error.View().Get(i, b) ==
                  if b == batch && i < output.Rows() then ColumnError(output.View(), target.View(), batch)[i]
                  else old(error.View()).Get(i, b)
    {
      var read := ReadColumn(output, target, batch, outputArr, targetArr);
      if read.Fail? {
        return read;
      }
      ghost var before := errorArr[..];
      var impl := GetErrorImpl(outputArr, targetArr, errorArr);
      if impl.Fail? {
        return impl;
      }
      ErrorOfColumn(output.View(), target.View(), batch, before);
      r := WriteColumn(error, batch, errorArr);
    }

    /**
     * getLoss(output, target): the mean over the columns of getLossImpl, after checking that
     * the logical shapes agree. With no columns the mean is the float quotient 0 / 0.
     */
    method GetLoss(output: Matrix, target: Matrix) returns (r: Result<real>)
      requires output.Valid() && target.Valid()
      ensures output.Rows() != target.Rows() || output.Cols() != target.Cols() ==> r == Err(IllegalArgument)
      ensures (output.Rows() == target.Rows() && output.Cols() == target.Cols() && output.Cols() > 0 &&
               !Readable(output.Rows())) ==> r == Err(IndexOutOfBounds)
      ensures r.Ok? <==>
                output.Rows() == target.Rows() && output.Cols() == target.Cols() &&
                (output.Cols() > 0 ==> Readable(output.Rows()))
      ensures r.Ok? ==>
                r.value == FDiv(Sum(ColumnLosses(output.View(), target.View(), output.Cols())), output.Cols() as real)
    {
      if output.Rows() != target.Rows() || output.Cols() != target.Cols() {
        return Err(IllegalArgument);
      }
      var numClasses := output.Rows();
      var batchSize := output.Cols();
      var outputArr := new real[numClasses];
      var targetArr := new real[numClasses];
      ghost var O, T := output.View(), target.View();
      var sum := 0.0;
      var batch := 0;
      while batch < batchSize
        invariant 0 <= batch <= batchSize
        invariant batch > 0 ==> Readable(numClasses)
        invariant sum == Sum(ColumnLosses(O, T, batch))
      {
        var _ := ReadColumn(output, target, batch, outputArr, targetArr);
        var loss := GetLossImpl(outputArr, targetArr);
        if loss.Err? {
          return Err(loss.error);
        }
        ColumnLossesExtended(O, T, batch);
        sum := sum + loss.value;
        batch := batch + 1;
      }
      r := Ok(FDiv(sum, batchSize as real));
    }
  }

  /**
   * The copy loop shared by getError and getLoss: outputArr[i] := output.get(i, batch) and
   * targetArr[i] := target.get(i, batch), stopping at the first target read out of bounds.
   */
  method ReadColumn(output: Matrix, target: Matrix, batch: nat, outputArr: array<real>, targetArr: array<real>)
    returns (r: Outcome)
    requires output.Valid() && target.Valid() && batch < output.Cols()
    requires outputArr.Length == targetArr.Length == output.Rows() && outputArr != targetArr
    requires outputArr != output.data && outputArr != target.data
    requires targetArr != output.data && targetArr != target.data
    modifies outputArr, targetArr
    ensures r.Fail? <==> output.Rows() > 0 && (batch >= target.Cols() || output.Rows() > target.Rows())
    ensures r.Fail? ==> r.error == IndexOutOfBounds
    ensures r.Pass? ==> output.Rows() <= target.Rows() && (output.Rows() > 0 ==> batch < target.Cols())
    ensures r.Pass? ==> outputArr[..] == Column(output.View(), batch, output.Rows())
    ensures r.Pass? ==> targetArr[..] == Column(target.View(), batch, output.Rows())
  {
    var i := 0;
    while i < output.Rows()
      invariant 0 <= i <= output.Rows()
      invariant i > 0 ==> i <= target.Rows() && batch < target.Cols()
      invariant forall k :: 0 <= k < i ==> outputArr[k] == output.View().Get(k, batch)
      invariant forall k :: 0 <= k < i ==> targetArr[k] == target.View().Get(k, batch)
    {
      outputArr[i] := output.At(i, batch);
      var t := target.Get(i, batch);
      if t.Err? {
        return Fail(t.error);
      }
      targetArr[i] := t.value;
      i := i + 1;
    }
    r := Pass;
  }

  /** The write-back loop of getError: error.set(j, batch, errorArr[j]) for every j. */
  method WriteColumn(error: Matrix, batch: nat, errorArr: array<real>) returns (r: Outcome)
    requires error.Valid() && errorArr != error.data
    modifies error.data
    ensures r.Fail? <==> errorArr.Length > 0 && (batch >= error.Cols() || errorArr.Length > error.Rows())
    ensures r.Fail? ==> r.error == IndexOutOfBounds
    ensures r.Pass? ==> forall i, b :: 0 <= i < error.Rows() && 0 <= b < error.Cols() ==>
              error.View().Get(i, b) == if b == batch && i < errorArr.Length then errorArr[i] else old(error.View()).Get(i, b)
  {
    ghost var E := error.View();
    var j := 0;
    while j < errorArr.Length
      invariant 0 <= j <= errorArr.Length
      invariant j > 0 ==> j <= error.Rows() && batch < error.Cols()
      invariant forall i, b :: 0 <= i < error.Rows() && 0 <= b < error.Cols() ==>
                  error.View().Get(i, b) == if b == batch && i < j then errorArr[i] else E.Get(i, b)
    {
      var w := error.Set(j, batch, errorArr[j]);
      if w.Fail? {
        return w;
      }
      j := j + 1;
    }
    r := Pass;
  }

  /** Σ exp(arr[i] - max), accumulated in index order: the sumExp loop of both softmax impls. */
  method SumOfExps(arr: array<real>, max: real) returns (sumExp: real)
    ensures sumExp == Sum(A.Exps(arr[..], max))
  {
    ghost var e := A.Exps(arr[..], max);
    sumExp := 0.0;
    var i := 0;
    while i < arr.Length
      invariant 0 <= i <= arr.Length
      invariant sumExp == Sum(e[..i])
    {
      assert e[..i + 1][..i] == e[..i];
      sumExp := sumExp + Exp(arr[i] - max);
      i := i + 1;
    }
    assert e[..i] == e;
  }

  /** softmaxOutput[i] := exp(output[i] - max) / sumExp: the softmax of both impls. */
  method SoftmaxOf(output: array<real>) returns (softmaxOutput: array<real>)
    ensures fresh(softmaxOutput)
    ensures softmaxOutput[..] == A.Softmax(output[..])
  {
    var numClasses := output.Length;
    softmaxOutput := new real[numClasses];
    var maxOutput := A.LargestElement(output);
    var sumExp := SumOfExps(output, maxOutput);
    ghost var e := A.Exps(output[..], maxOutput);
    ghost var p: seq<real> := [];
    if numClasses > 0 {
      SumPositive(e);
      p := A.Normalized(e);
    }
    var i := 0;
    while i < numClasses
      invariant 0 <= i <= numClasses
      invariant forall k :: 0 <= k < i ==> softmaxOutput[k] == p[k]
    {
      assert Exp(output[i] - maxOutput) == e[i] && p[i] == e[i] / sumExp;
      softmaxOutput[i] := Exp(output[i] - maxOutput) / sumExp;
      i := i + 1;
    }
    assert softmaxOutput[..] == p;
  }

  /** SOFT_MAX_CROSS_ENTROPY_LOSS.getErrorImpl: out[i] := softmax(output)[i] - target[i]. */
  method SoftmaxCrossEntropyError(output: array<real>, target: array<real>, out: array<real>)
    requires output.Length == target.Length == out.Length
    requires out != output && out != target
    modifies out
    ensures out[..] == SoftMaxCrossEntropy.ErrorOf(output[..], target[..], old(out[..]))
  {
    ghost var e := SoftMaxCrossEntropy.ErrorOf(output[..], target[..], out[..]);
    var softmaxOutput := SoftmaxOf(output);
    var i := 0;
    while i < output.Length
      invariant 0 <= i <= output.Length
      invariant softmaxOutput[..] == A.Softmax(output[..])
      invariant forall k :: 0 <= k < i ==> out[k] == e[k]
    {
      assert e[i] == softmaxOutput[i] - target[i];
      out[i] := softmaxOutput[i] - target[i];
      i := i + 1;
    }
    assert out[..] == e;
  }

  /** SOFT_MAX_CROSS_ENTROPY_LOSS.getLossImpl: the softmax, then the negative log-likelihood loop. */
  method SoftmaxCrossEntropyLoss(output: array<real>, target: array<real>) returns (loss: real)
    requires output.Length == target.Length
    ensures loss == SoftMaxCrossEntropy.LossOf(output[..], target[..])
  {
    var softmaxOutput := SoftmaxOf(output);
    loss := NegLogLikelihoodOf(softmaxOutput, target);
  }

  /** loss -= log(softmaxOutput[i]) for every i whose target is exactly 1. */
  method NegLogLikelihoodOf(softmaxOutput: array<real>, target: array<real>) returns (loss: real)
    requires softmaxOutput.Length == target.Length
    ensures loss == NegLogLikelihood(softmaxOutput[..], target[..], softmaxOutput.Length)
  {
    loss := 0.0;
    var i := 0;
    while i < softmaxOutput.Length
      invariant 0 <= i <= softmaxOutput.Length
      invariant loss == NegLogLikelihood(softmaxOutput[..], target[..], i)
    {
      if target[i] == 1.0 {
        loss := loss - Log(softmaxOutput[i]);
      }
      i := i + 1;
    }
  }

  /** For a one-hot target, the softmax cross-entropy error column sums to zero. */
  lemma SoftmaxErrorSumsToZero(output: seq<real>, target: seq<real>, out: seq<real>, c: nat)
    requires |output| == |target| == |out| && OneHot(target, c)
    ensures Sum(SoftMaxCrossEntropy.ErrorOf(output, target, out)) == 0.0
  {
    var p := A.Softmax(output);
    A.SoftmaxSumsToOne(output);
    OneHotSum(target, c, |target|);
    assert target[..|target|] == target;
    SumDifference(p, target, SoftMaxCrossEntropy.ErrorOf(output, target, out));
  }

  /** A one-hot sequence sums to 1 once its marked index is included. */
  lemma {:induction false} OneHotSum(t: seq<real>, c: nat, k: nat)
    requires OneHot(t, c) && k <= |t|
    ensures Sum(t[..k]) == if c < k then 1.0 else 0.0
  {
    if k > 0 {
      OneHotSum(t, c, k - 1);
      assert t[..k][..k - 1] == t[..k - 1];
    }
  }

  /**
   * For a one-hot target, the softmax cross-entropy error is negative at the true class and
   * positive elsewhere: gradient descent raises the true logit and lowers the others.
   */
  lemma SoftmaxErrorSigns(output: seq<real>, target: seq<real>, out: seq<real>, c: nat)
    requires |output| == |target| == |out| && OneHot(target, c)
    ensures var e := SoftMaxCrossEntropy.ErrorOf(output, target, out);
      e[c] <= 0.0 && forall i :: 0 <= i < |e| && i != c ==> e[i] > 0.0
  {
    var p := A.Softmax(output);
    var e := SoftMaxCrossEntropy.ErrorOf(output, target, out);
    A.SoftmaxSumsToOne(output);
    assert e[c] <= 0.0 by {
      SoftmaxAtMostOne(p, c, |p|);
      assert p[..|p|] == p;
    }
    forall i | 0 <= i < |e| && i != c
      ensures e[i] > 0.0
    {
      assert e[i] == p[i] - target[i] && target[i] == 0.0;
    }
  }

  /** Entries of a positive sequence summing to 1 are at most 1. */
  lemma {:induction false} SoftmaxAtMostOne(p: seq<real>, c: nat, k: nat)
    requires c < k <= |p| && forall i :: 0 <= i < |p| ==> p[i] > 0.0
    ensures p[c] <= Sum(p[..k])
  {
    assert p[..k][..k - 1] == p[..k - 1];
    if c < k - 1 {
      SoftmaxAtMostOne(p, c, k - 1);
    } else if k > 1 {
      SumPositive(p[..k - 1]);
    }
  }

  /** For a one-hot target the softmax cross-entropy loss is -log of the true class's probability. */
  lemma SoftmaxLossOneHot(output: seq<real>, target: seq<real>, c: nat)
    requires |output| == |target| && OneHot(target, c)
    ensures SoftMaxCrossEntropy.LossOf(output, target) == -Log(A.Softmax(output)[c])
  {
    NegLogLikelihoodOneHot(A.Softmax(output), target, c, |output|);
  }

  /** With a one-hot target only the marked class contributes to the negative log-likelihood. */
  lemma {:induction false} NegLogLikelihoodOneHot(p: seq<real>, t: seq<real>, c: nat, k: nat)
    requires |p| == |t| && OneHot(t, c) && k <= |p|
    ensures NegLogLikelihood(p, t, k) == if c < k then -Log(p[c]) else 0.0
  {
    if k > 0 {
      NegLogLikelihoodOneHot(p, t, c, k - 1);
    }
  }

  /**
   * For a 0/1 target, the binary cross-entropy error sigmoid(z) - y lies strictly between -1
   * and 1 and points away from the target.
   */
  lemma BinaryErrorSigns(output: seq<real>, target: seq<real>, out: seq<real>)
    requires |output| == |target| == |out| > 0 && (target[0] == 0.0 || target[0] == 1.0)
    ensures var e := BinaryCrossEntropy.ErrorOf(output, target, out);
      -1.0 < e[0] < 1.0 && (target[0] == 1.0 ==> e[0] < 0.0) && (target[0] == 0.0 ==> e[0] > 0.0)
    ensures var e := BinaryCrossEntropy.ErrorOf(output, target, out);
      forall i :: 1 <= i < |out| ==> e[i] == out[i]
  {
  }

  /** A batch whose every column holds the same example has that example's loss as its mean. */
  lemma UniformBatchLoss(loss: Loss, O: Mat, T: Mat, o: seq<real>, t: seq<real>)
    requires O.Valid() && T.Valid() && O.Rows() == T.Rows() && O.Cols() == T.Cols() && O.Cols() > 0
    requires loss.Readable(O.Rows()) && |o| == |t| == O.Rows()
    requires forall b :: 0 <= b < O.Cols() ==> Column(O, b, O.Rows()) == o && Column(T, b, O.Rows()) == t
    ensures FDiv(Sum(loss.ColumnLosses(O, T, O.Cols())), O.Cols() as real) == loss.LossOf(o, t)
  {
    SumConstant(loss.ColumnLosses(O, T, O.Cols()), loss.LossOf(o, t));
    MeanOfEqual(O.Cols() as real, loss.LossOf(o, t));
  }
}
