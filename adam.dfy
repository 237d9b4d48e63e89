/**
 * Adam.java: one training step of a Model. step(input, target, alpha) clears the gradient
 * buffers, propagates the batch forward, takes the loss error at the output, and walks the
 * layers from L down to 1, computing the gradients of each layer by backpropagation and
 * moving its weights and biases by the Adam rule with the running moments mW, vW, mb, vb.
 */
module Optimizers {
  import opened Errors
  import opened Numerics
  import opened Dense
  import opened Matrices
  import opened Activations
  import opened Models
  import opened Buffers
  import Losses

  /** Adam.EPSILON: added to the corrected second moment under the square root. */
  const EPSILON: real := 0.00001

  // ---------------------------------------------------------------------------------------
  // The update of one cell

  /** B1 · m + (1 - B1) · g: the running mean of the gradient. */
  function FirstMoment(B1: real, m: real, g: real): real
  {
    B1 * m + (1.0 - B1) * g
  }

  /** B2 · v + (1 - B2) · g · g: the running mean of the squared gradient. */
  function SecondMoment(B2: real, v: real, g: real): real
  {
    B2 * v + (1.0 - B2) * g * g
  }

  /** x / (1 - B^t): the bias correction of a moment after t steps, as a float division. */
  function Corrected(x: real, B: real, t: int): real
  {
    FDiv(x, 1.0 - Pow(B, t as real))
  }

  /**
   * w - alpha · m_hat / sqrt(v_hat + EPSILON), for the already updated moments m and v. When
   * neither float division divides by zero, the parameter moves exactly when alpha and m are
   * both non-zero; with positive alpha and divisors it moves down exactly when m is positive.
   */
  function Descended(w: real, m: real, v: real, B1: real, B2: real, t: int, alpha: real): (w': real)
    ensures 1.0 - Pow(B1, t as real) != 0.0 && Sqrt(Corrected(v, B2, t) + EPSILON) != 0.0 ==>
              (w' == w <==> alpha == 0.0 || m == 0.0)
    ensures alpha > 0.0 && 1.0 - Pow(B1, t as real) > 0.0 && Sqrt(Corrected(v, B2, t) + EPSILON) > 0.0 ==>
              (w' < w <==> m > 0.0)
  {
    var q := Corrected(m, B1, t);
    var step := FDiv(Mul(alpha, q), Sqrt(Corrected(v, B2, t) + EPSILON));
    StepSign(m, q, 1.0 - Pow(B1, t as real), alpha, step, Sqrt(Corrected(v, B2, t) + EPSILON));
    w - step
  }

  /**
   * The sign of the step alpha · q / S, where q · d == m: zero exactly when alpha or m is, and,
   * for positive alpha, d and S, positive exactly when m is.
   */
  lemma StepSign(m: real, q: real, d: real, alpha: real, step: real, S: real)
    requires d != 0.0 ==> q * d == m
    requires S != 0.0 ==> step * S == alpha * q
    ensures d != 0.0 && S != 0.0 ==> (step == 0.0 <==> alpha == 0.0 || m == 0.0)
    ensures alpha > 0.0 && d > 0.0 && S > 0.0 ==> (step > 0.0 <==> m > 0.0)
  {
    if d != 0.0 && S != 0.0 {
      ProductSign(q, d);
      ProductSign(step, S);
      if alpha != 0.0 {
        assert alpha * q == 0.0 <==> q == 0.0;
      }
    }
    if alpha > 0.0 && d > 0.0 && S > 0.0 {
      ProductSign(q, d);
      ProductSign(step, S);
      ProductSign(q, alpha);
      assert alpha * q == q * alpha;
    }
  }

  /** Multiplying by a non-zero factor keeps zero at zero, and a positive one keeps the sign. */
  lemma ProductSign(x: real, y: real)
    ensures y != 0.0 ==> (x * y == 0.0 <==> x == 0.0)
    ensures y > 0.0 ==> (x * y > 0.0 <==> x > 0.0)
  {
    if y > 0.0 {
      if x > 0.0 { assert x * y > 0.0; }
      else if x < 0.0 { assert (-x) * y > 0.0; }
    } else if y < 0.0 {
      if x > 0.0 { assert x * (-y) > 0.0; }
      else if x < 0.0 { assert (-x) * (-y) > 0.0; }
    }
  }

  /** The product of two non-negative numbers is non-negative. */
  lemma NonNegativeProduct(x: real, y: real)
    requires x >= 0.0 && y >= 0.0
    ensures x * y >= 0.0
  {
  }

  /** With 0 <= B1 <= 1 the new first moment lies between the old moment and the gradient. */
  lemma FirstMomentBetween(B1: real, m: real, g: real)
    requires 0.0 <= B1 <= 1.0
    ensures m <= g ==> m <= FirstMoment(B1, m, g) <= g
    ensures g <= m ==> g <= FirstMoment(B1, m, g) <= m
  {
    assert FirstMoment(B1, m, g) - m == (1.0 - B1) * (g - m);
    assert FirstMoment(B1, m, g) - g == B1 * (m - g);
    if m <= g {
      NonNegativeProduct(1.0 - B1, g - m);
      NonNegativeProduct(B1, g - m);
      assert B1 * (m - g) == -(B1 * (g - m));
    } else {
      NonNegativeProduct(1.0 - B1, m - g);
      NonNegativeProduct(B1, m - g);
      assert (1.0 - B1) * (g - m) == -((1.0 - B1) * (m - g));
    }
  }

  /** With 0 <= B2 <= 1 a non-negative second moment stays non-negative. */
  lemma SecondMomentNonNegative(B2: real, v: real, g: real)
    requires 0.0 <= B2 <= 1.0 && v >= 0.0
    ensures SecondMoment(B2, v, g) >= 0.0
  {
    assert g * g >= 0.0;
    assert (1.0 - B2) * g * g == (1.0 - B2) * (g * g);
    assert (1.0 - B2) * (g * g) >= 0.0;
    assert B2 * v >= 0.0;
  }

  /** A gradient equal to the first moment leaves the moment where it is. */
  lemma FirstMomentSteady(B1: real, g: real)
    ensures FirstMoment(B1, g, g) == g
  {
    assert B1 * g + (1.0 - B1) * g == (B1 + 1.0 - B1) * g;
  }

  /**
   * A zero first moment moves no parameter, provided neither float division of the update
   * divides by zero (which would give NaN instead).
   */
  lemma ZeroMomentKeeps(w: real, v: real, B1: real, B2: real, t: int, alpha: real)
    requires 1.0 - Pow(B1, t as real) != 0.0
    requires Sqrt(Corrected(v, B2, t) + EPSILON) != 0.0
    ensures Descended(w, 0.0, v, B1, B2, t, alpha) == w
  {
    var c := Corrected(0.0, B1, t);
    assert c * (1.0 - Pow(B1, t as real)) == 0.0;
    assert c == 0.0;
  }

  // ---------------------------------------------------------------------------------------
  // The update of one buffer

  /** The first moments of a buffer after one step, cell by cell. */
  function FirstMoments(B1: real, m: seq<real>, g: seq<real>): (m': seq<real>)
    requires |m| == |g|
    ensures |m'| == |m|
  {
    seq(|m|, i requires 0 <= i < |m| => FirstMoment(B1, m[i], g[i]))
  }

  /** The second moments of a buffer after one step, cell by cell. */
  function SecondMoments(B2: real, v: seq<real>, g: seq<real>): (v': seq<real>)
    requires |v| == |g|
    ensures |v'| == |v|
  {
    seq(|v|, i requires 0 <= i < |v| => SecondMoment(B2, v[i], g[i]))
  }

  /** The parameters of a buffer after one step with the new moments m and v, cell by cell. */
  function Descents(w: seq<real>, m: seq<real>, v: seq<real>, B1: real, B2: real, t: int, alpha: real): (w': seq<real>)
    requires |w| == |m| == |v|
    ensures |w'| == |w|
  {
    seq(|w|, i requires 0 <= i < |w| => Descended(w[i], m[i], v[i], B1, B2, t, alpha))
  }

  /** With 0 <= B2 <= 1 the second moments of every cell stay non-negative, step after step. */
  lemma SecondMomentsNonNegative(B2: real, v: seq<real>, g: seq<real>)
    requires 0.0 <= B2 <= 1.0 && |v| == |g|
    requires forall i :: 0 <= i < |v| ==> v[i] >= 0.0
    ensures forall i :: 0 <= i < |v| ==> SecondMoments(B2, v, g)[i] >= 0.0
  {
    forall i | 0 <= i < |v|
      ensures SecondMoments(B2, v, g)[i] >= 0.0
    {
      SecondMomentNonNegative(B2, v[i], g[i]);
    }
  }

  /**
   * On a first step (zero moments), a buffer whose gradient is zero everywhere keeps its
   * parameters, unless a float division of the update divides by zero.
   */
  lemma ZeroGradientKeeps(w: seq<real>, m: seq<real>, v: seq<real>, g: seq<real>,
                          B1: real, B2: real, t: int, alpha: real)
    requires |w| == |m| == |v| == |g|
    requires forall i :: 0 <= i < |g| ==> m[i] == 0.0 && g[i] == 0.0
    requires 1.0 - Pow(B1, t as real) != 0.0
    requires forall i :: 0 <= i < |v| ==> Sqrt(Corrected(SecondMoment(B2, v[i], 0.0), B2, t) + EPSILON) != 0.0
    ensures FirstMoments(B1, m, g) == m
    ensures Descents(w, FirstMoments(B1, m, g), SecondMoments(B2, v, g), B1, B2, t, alpha) == w
  {
    var m', v' := FirstMoments(B1, m, g), SecondMoments(B2, v, g);
    forall i | 0 <= i < |w|
      ensures m'[i] == 0.0 && Descended(w[i], m'[i], v'[i], B1, B2, t, alpha) == w[i]
    {
      assert m'[i] == B1 * 0.0 + (1.0 - B1) * 0.0;
      ZeroMomentKeeps(w[i], v'[i], B1, B2, t, alpha);
    }
  }

  // ---------------------------------------------------------------------------------------
  // Backpropagation, as values

  /**
   * dz of a hidden layer: derivImpl of each pre-activation cell times the matching cell of
   * da, over buffers of one layout.
   */
  function HiddenDelta(f: Activation, Z: Mat, DA: Mat): (D: Mat)
    requires |Z.data| == |DA.data|
    ensures D.rows == DA.rows && D.cols == DA.cols && D.transposed == DA.transposed && |D.data| == |DA.data|
  {
    DA.(data := seq(|DA.data|, p requires 0 <= p < |DA.data| => Mul(f.DerivImpl(Z.data[p]), DA.data[p])))
  }

  /** dW = (dz · prevᵀ) / m: the weight gradient, averaged over the batch. */
  function WeightGradient(D: Mat, P: Mat, s: real): (G: Mat)
    requires D.Valid() && P.Valid() && D.Cols() == P.Cols()
    ensures G.Valid() && !G.transposed && G.rows == D.Rows() && G.cols == P.Rows()
  {
    Scaled(Product(D, P.Transposed()), s)
  }

  /** db = (row sums of dz) / m: the bias gradient, averaged over the batch. */
  function BiasGradient(D: Mat, s: real): (G: Mat)
    requires D.Valid()
    ensures G.Valid() && !G.transposed && G.rows == D.Rows() && G.cols == 1
  {
    Scaled(RowSums(D), s)
  }

  /** da of the layer below: Wᵀ · dz. */
  function InputGradient(Wl: Mat, D: Mat): (G: Mat)
    requires Wl.Valid() && D.Valid() && Wl.Rows() == D.Rows()
    ensures G.Valid() && !G.transposed && G.rows == Wl.Cols() && G.cols == D.Cols()
  {
    Product(Wl.Transposed(), D)
  }

  /**
   * The shapes backpropagation reads: for layers 1 .. |n| - 1, weights n[l] x n[l-1] and a
   * pre-activation grid n[l] x m with an activation; the output error E a grid n[L] x m.
   */
  predicate Backward(Ws: seq<Mat>, Zs: seq<Mat>, fs: seq<Option<Activation>>, E: Mat, n: seq<nat>, m: nat)
  {
    |Ws| == |Zs| == |fs| == |n| > 0 &&
    (forall l {:trigger Ws[l]} {:trigger Zs[l]} {:trigger fs[l]} :: 1 <= l < |n| ==>
      Ws[l].Valid() && Ws[l].Rows() == n[l] && Ws[l].Cols() == n[l - 1] && fs[l].Some? &&
      Zs[l].Valid() && !Zs[l].transposed && Zs[l].rows == n[l] && Zs[l].cols == m) &&
    E.Valid() && !E.transposed && E.rows == n[|n| - 1] && E.cols == m
  }

  /**
   * The reference definition of dz[l]: the output error at the last layer, and below it the
   * derivative of the activation times the error passed back through the weights above.
   */
  function Delta(Ws: seq<Mat>, Zs: seq<Mat>, fs: seq<Option<Activation>>, E: Mat, n: seq<nat>, m: nat, l: nat): (D: Mat)
    requires Backward(Ws, Zs, fs, E, n, m) && 1 <= l < |n|
    ensures D.Valid() && !D.transposed && D.rows == n[l] && D.cols == m
    decreases |n| - l
  {
    if l == |n| - 1 then E
    else HiddenDelta(fs[l].value, Zs[l], InputGradient(Ws[l + 1], Delta(Ws, Zs, fs, E, n, m, l + 1)))
  }

  /** A Delta of layer l reads the pre-activations of layers l .. |n| - 1 only, never those of layer 0. */
  lemma {:induction false} DeltaIgnoresInput(Ws: seq<Mat>, Zs: seq<Mat>, Zs': seq<Mat>, fs: seq<Option<Activation>>,
                                             E: Mat, n: seq<nat>, m: nat, l: nat)
    requires Backward(Ws, Zs, fs, E, n, m) && Backward(Ws, Zs', fs, E, n, m) && 1 <= l < |n|
    requires forall k :: 1 <= k < |n| ==> Zs'[k] == Zs[k]
    ensures Delta(Ws, Zs', fs, E, n, m, l) == Delta(Ws, Zs, fs, E, n, m, l)
    decreases |n| - l
  {
    if l < |n| - 1 {
      DeltaIgnoresInput(Ws, Zs, Zs', fs, E, n, m, l + 1);
      assert Zs'[l] == Zs[l];
    }
  }

  /** The Delta of every layer; position 0 holds none. */
  function Deltas(Ws: seq<Mat>, Zs: seq<Mat>, fs: seq<Option<Activation>>, E: Mat, n: seq<nat>, m: nat): (Ds: seq<Mat>)
    requires Backward(Ws, Zs, fs, E, n, m)
    ensures |Ds| == |n| && Ds[0] == Nothing
    ensures forall l :: 1 <= l < |n| ==> Ds[l] == Delta(Ws, Zs, fs, E, n, m, l)
  {
    seq(|n|, l requires 0 <= l < |n| => if l == 0 then Nothing else Delta(Ws, Zs, fs, E, n, m, l))
  }

  // ---------------------------------------------------------------------------------------
  // One training step, as values

  /** The weights, the bias and the four running moments of one layer. */
  datatype Layer = Layer(W: Mat, b: Mat, mW: Mat, vW: Mat, mb: Mat, vb: Mat)

  /** The empty grid, which stands for the null entries of position 0. */
  const Nothing: Mat := Mat(0, 0, false, [])

  /** Position 0 of the parameter arrays, which holds no layer. */
  const NoLayer: Layer := Layer(Nothing, Nothing, Nothing, Nothing, Nothing, Nothing)

  /** M is a rows x cols grid, untransposed, with a full buffer. */
  predicate Fits(M: Mat, rows: nat, cols: nat)
  {
    M.Valid() && !M.transposed && M.rows == rows && M.cols == cols
  }

  /** Weights rows x cols and a bias column rows x 1, with moments of the same shapes. */
  predicate LayerFits(P: Layer, rows: nat, cols: nat)
  {
    Fits(P.W, rows, cols) && Fits(P.mW, rows, cols) && Fits(P.vW, rows, cols) &&
    Fits(P.b, rows, 1) && Fits(P.mb, rows, 1) && Fits(P.vb, rows, 1)
  }

  /** Layer l of 1 .. |n| - 1 fits between sizes n[l-1] and n[l]; position 0 holds no layer. */
  predicate Shapely(Ps: seq<Layer>, n: seq<nat>)
  {
    |Ps| == |n| > 0 && Ps[0] == NoLayer &&
    forall l {:trigger Ps[l]} :: 1 <= l < |n| ==> LayerFits(Ps[l], n[l], n[l - 1])
  }

  /** The weights of every layer. */
  function Weights(Ps: seq<Layer>): (Ws: seq<Mat>)
    ensures |Ws| == |Ps| && forall l :: 0 <= l < |Ps| ==> Ws[l] == Ps[l].W
  {
    seq(|Ps|, l requires 0 <= l < |Ps| => Ps[l].W)
  }

  /** The biases of every layer. */
  function Biases(Ps: seq<Layer>): (Bs: seq<Mat>)
    ensures |Bs| == |Ps| && forall l :: 0 <= l < |Ps| ==> Bs[l] == Ps[l].b
  {
    seq(|Ps|, l requires 0 <= l < |Ps| => Ps[l].b)
  }

  /**
   * One layer after the two update loops of computeBackPropagationStep, given its weight and
   * bias gradients: the moments move toward the gradient, then every parameter cell descends
   * by its own corrected moments.
   */
  function Updated(P: Layer, GW: Mat, GB: Mat, B1: real, B2: real, t: int, alpha: real): (P': Layer)
    requires |P.mW.data| == |P.vW.data| == |P.W.data| == |GW.data|
    requires |P.mb.data| == |P.vb.data| == |P.b.data| == |GB.data|
    ensures Congruent(P', P)
  {
    var mW, vW := FirstMoments(B1, P.mW.data, GW.data), SecondMoments(B2, P.vW.data, GW.data);
    var mb, vb := FirstMoments(B1, P.mb.data, GB.data), SecondMoments(B2, P.vb.data, GB.data);
    Layer(P.W.(data := Descents(P.W.data, mW, vW, B1, B2, t, alpha)),
          P.b.(data := Descents(P.b.data, mb, vb, B1, B2, t, alpha)),
          P.mW.(data := mW), P.vW.(data := vW), P.mb.(data := mb), P.vb.(data := vb))
  }

  /** M and M' have the same shape, layout and buffer length. */
  predicate Alike(M: Mat, M': Mat)
  {
    M.SameLayout(M') && |M.data| == |M'.data|
  }

  /** Every matrix of P has the shape, layout and buffer length of its counterpart in Q. */
  predicate Congruent(P: Layer, Q: Layer)
  {
    Alike(P.W, Q.W) && Alike(P.b, Q.b) && Alike(P.mW, Q.mW) && Alike(P.vW, Q.vW) && Alike(P.mb, Q.mb) && Alike(P.vb, Q.vb)
  }

  /** The activations backpropagation reads: layer l's is an n[l] x m grid. */
  predicate Activated(As: seq<Mat>, n: seq<nat>, m: nat)
  {
    |As| == |n| && forall l {:trigger As[l]} :: 0 <= l < |n| ==> As[l].Valid() && As[l].Rows() == n[l] && As[l].Cols() == m
  }

  /**
   * The layers after the backward loop of step: layer l descends along the gradients of its
   * Delta, averaged over the m examples, with the moments and the weights as they were before
   * the loop.
   */
  function Backpropagated(Ps: seq<Layer>, As: seq<Mat>, Zs: seq<Mat>, E: Mat, fs: seq<Option<Activation>>,
                          n: seq<nat>, m: nat, B1: real, B2: real, t: int, alpha: real): (Ps': seq<Layer>)
    requires Shapely(Ps, n) && Backward(Weights(Ps), Zs, fs, E, n, m) && Activated(As, n, m)
  {
    var s := FDiv(1.0, m as real);
    seq(|Ps|, l requires 0 <= l < |Ps| =>
      if l == 0 then Ps[0]
      else
        var D := Delta(Weights(Ps), Zs, fs, E, n, m, l);
        Updated(Ps[l], WeightGradient(D, As[l - 1], s), BiasGradient(D, s), B1, B2, t, alpha))
  }

  /**
   * The backward loop of step spelled out layer by layer: Ds holds the delta dz of every layer,
   * Us the gradient da each layer hands down, and Qs the layers after their updates.
   */
  ghost predicate Schedule(Ps: seq<Layer>, As: seq<Mat>, Zs: seq<Mat>, Ds: seq<Mat>, Us: seq<Mat>, Qs: seq<Layer>,
                           fs: seq<Option<Activation>>, n: seq<nat>, m: nat, B1: real, B2: real, t: int, alpha: real)
  {
    Shapely(Ps, n) && Activated(As, n, m) &&
    |Zs| == |Ds| == |Us| == |Qs| == |fs| == |n| && Qs[0] == Ps[0] &&
    (forall l :: 1 <= l < |n| ==> Fits(Zs[l], n[l], m) && Fits(Ds[l], n[l], m) && fs[l].Some?) &&
    (forall l :: 1 <= l < |n| - 1 ==> Fits(Us[l], n[l], m)) &&
    (forall l :: 1 <= l < |n| ==> Us[l - 1] == InputGradient(Ps[l].W, Ds[l])) &&
    (forall l {:trigger Ds[l]} :: 1 <= l < |n| - 1 ==> Ds[l] == HiddenDelta(fs[l].value, Zs[l], Us[l])) &&
    (forall l :: 1 <= l < |n| ==>
       Qs[l] == Updated(Ps[l], WeightGradient(Ds[l], As[l - 1], FDiv(1.0, m as real)),
                        BiasGradient(Ds[l], FDiv(1.0, m as real)), B1, B2, t, alpha))
  }

  /** The schedule's facts about layer l. */
  lemma ScheduleAt(Ps: seq<Layer>, As: seq<Mat>, Zs: seq<Mat>, Ds: seq<Mat>, Us: seq<Mat>, Qs: seq<Layer>,
                   fs: seq<Option<Activation>>, n: seq<nat>, m: nat, B1: real, B2: real, t: int, alpha: real, l: nat)
    requires Schedule(Ps, As, Zs, Ds, Us, Qs, fs, n, m, B1, B2, t, alpha) && 1 <= l < |n|
    ensures LayerFits(Ps[l], n[l], n[l - 1]) && Fits(Ds[l], n[l], m) && Fits(Zs[l], n[l], m) && fs[l].Some?
    ensures As[l - 1].Valid() && As[l - 1].Rows() == n[l - 1] && As[l - 1].Cols() == m
    ensures l < |n| - 1 ==> Fits(Us[l], n[l], m) && Ds[l] == HiddenDelta(fs[l].value, Zs[l], Us[l])
    ensures Us[l - 1] == InputGradient(Ps[l].W, Ds[l])
    ensures Qs[l] == Updated(Ps[l], WeightGradient(Ds[l], As[l - 1], FDiv(1.0, m as real)),
                             BiasGradient(Ds[l], FDiv(1.0, m as real)), B1, B2, t, alpha)
  {
  }

  /** Layers 0 .. l as in Ps and the ones above as in Qs: the backward loop halfway down. */
  function Spliced(Ps: seq<Layer>, Qs: seq<Layer>, l: nat): (Rs: seq<Layer>)
    requires |Ps| == |Qs| && l < |Ps|
    ensures |Rs| == |Ps| && forall k :: 0 <= k < |Ps| ==> Rs[k] == if k <= l then Ps[k] else Qs[k]
  {
    seq(|Ps|, k requires 0 <= k < |Ps| => if k <= l then Ps[k] else Qs[k])
  }

  /** Replacing layer l of Spliced(Ps, Qs, l) by Qs[l] moves the splice one layer down. */
  lemma SplicedStep(Ps: seq<Layer>, Qs: seq<Layer>, l: nat, k: nat)
    requires |Ps| == |Qs| && 1 <= l < |Ps| && k + 1 == l
    ensures Spliced(Ps, Qs, l)[l := Qs[l]] == Spliced(Ps, Qs, k)
  {
  }

  /** Before the loop nothing is spliced in, and all the way down only position 0 is left of Ps. */
  lemma SplicedEnds(Ps: seq<Layer>, Qs: seq<Layer>)
    requires |Ps| == |Qs| > 0 && Ps[0] == Qs[0]
    ensures Spliced(Ps, Qs, |Ps| - 1) == Ps && Spliced(Ps, Qs, 0) == Qs
  {
  }

  /** The gradient da each layer hands down, for the deltas Ds; the last position holds none. */
  function Handed(Ps: seq<Layer>, Ds: seq<Mat>, n: seq<nat>, m: nat): (Us: seq<Mat>)
    requires Shapely(Ps, n) && |Ds| == |n| && forall l :: 1 <= l < |n| ==> Fits(Ds[l], n[l], m)
    ensures |Us| == |n| && forall k :: 0 <= k < |n| ==> Us[k] == Handing(Ps, Ds, n, m, k)
  {
    seq(|n|, k requires 0 <= k < |n| => Handing(Ps, Ds, n, m, k))
  }

  /** The gradient layer k + 1 hands down to layer k, if there is a layer k + 1. */
  function Handing(Ps: seq<Layer>, Ds: seq<Mat>, n: seq<nat>, m: nat, k: nat): (U: Mat)
    requires Shapely(Ps, n) && |Ds| == |n| && forall l :: 1 <= l < |n| ==> Fits(Ds[l], n[l], m)
    requires k < |n|
    ensures k + 1 < |n| ==> Fits(U, n[k], m)
  {
    if k + 1 < |n| then
      var l := k + 1;
      assert LayerFits(Ps[l], n[l], n[l - 1]) && Fits(Ds[l], n[l], m);
      InputGradient(Ps[l].W, Ds[l])
    else Nothing
  }

  /** Backpropagated follows the schedule of Deltas and the gradients they hand down. */
  lemma BackpropagatedSchedule(Ps: seq<Layer>, As: seq<Mat>, Zs: seq<Mat>, E: Mat, fs: seq<Option<Activation>>,
                               n: seq<nat>, m: nat, B1: real, B2: real, t: int, alpha: real)
    requires Shapely(Ps, n) && Backward(Weights(Ps), Zs, fs, E, n, m) && Activated(As, n, m)
    ensures var Ds := Deltas(Weights(Ps), Zs, fs, E, n, m);
            (|n| > 1 ==> Ds[|n| - 1] == E) &&
            Schedule(Ps, As, Zs, Ds, Handed(Ps, Ds, n, m), Backpropagated(Ps, As, Zs, E, fs, n, m, B1, B2, t, alpha),
                     fs, n, m, B1, B2, t, alpha)
  {
    var Ws := Weights(Ps);
    var Ds := Deltas(Ws, Zs, fs, E, n, m);
    var Us := Handed(Ps, Ds, n, m);
    var Qs := Backpropagated(Ps, As, Zs, E, fs, n, m, B1, B2, t, alpha);
    forall l | 1 <= l < |n| - 1
      ensures Fits(Us[l], n[l], m)
    {
      assert Us[l] == Handing(Ps, Ds, n, m, l);
    }
    forall l | 1 <= l < |n|
      ensures Us[l - 1] == InputGradient(Ps[l].W, Ds[l])
    {
      assert Us[l - 1] == Handing(Ps, Ds, n, m, l - 1);
    }
    forall l | 1 <= l < |n| - 1
      ensures Ds[l] == HiddenDelta(fs[l].value, Zs[l], Us[l])
    {
      assert Ws[l + 1] == Ps[l + 1].W && Us[l] == Handing(Ps, Ds, n, m, l);
    }
    var s := FDiv(1.0, m as real);
    assert |Qs| == |n| && Qs[0] == Ps[0];
    forall l | 1 <= l < |n|
      ensures Qs[l] == Updated(Ps[l], WeightGradient(Ds[l], As[l - 1], s), BiasGradient(Ds[l], s), B1, B2, t, alpha)
    {
      assert Ds[l] == Delta(Ws, Zs, fs, E, n, m, l);
    }
  }

  /** Every layer of a shapely network chains onto the one below, starting from an n[0] x m input. */
  lemma ShapelyChain(Ps: seq<Layer>, fs: seq<Option<Activation>>, X: Mat, n: seq<nat>, m: nat)
    requires Shapely(Ps, n) && |fs| == |n| && (forall l :: 1 <= l < |n| ==> fs[l].Some?) && Fits(X, n[0], m)
    ensures Chain(Weights(Ps), Biases(Ps), fs, X)
  {
    var Ws, Bs := Weights(Ps), Biases(Ps);
    forall l | 1 <= l < |Ws|
      ensures Ws[l].Valid() && Bs[l].Valid() && Bs[l].Rows() == Ws[l].Rows() && Bs[l].Cols() == 1
      ensures l == 1 ==> Ws[l].Cols() == X.Rows()
    {
      assert Ws[l] == Ps[l].W && Bs[l] == Ps[l].b && LayerFits(Ps[l], n[l], n[l - 1]);
    }
    forall k, l | 1 <= k < |Ws| && 1 <= l < |Ws| && k + 1 == l
      ensures Ws[l].Cols() == Ws[k].Rows()
    {
      assert Ws[l] == Ps[l].W && Ws[k] == Ps[k].W;
      assert LayerFits(Ps[l], n[l], n[l - 1]) && LayerFits(Ps[k], n[k], n[k - 1]);
    }
  }

  /** The input of a step must fit the network: layers with activations and an n[0] x m batch. */
  predicate Feedable(Ps: seq<Layer>, fs: seq<Option<Activation>>, X: Mat, n: seq<nat>, m: nat)
  {
    Shapely(Ps, n) && |fs| == |n| && (forall l :: 1 <= l < |n| ==> fs[l].Some?) && Fits(X, n[0], m)
  }

  /** The activations of every layer for the batch X: the forward half of a step. */
  function ForwardPass(Ps: seq<Layer>, fs: seq<Option<Activation>>, X: Mat, n: seq<nat>, m: nat): (As: seq<Mat>)
    requires Feedable(Ps, fs, X, n, m)
    ensures Chain(Weights(Ps), Biases(Ps), fs, X) && Activated(As, n, m)
    ensures forall l :: 0 <= l < |n| ==> As[l] == Forward(Weights(Ps), Biases(Ps), fs, X, l)
  {
    ShapelyChain(Ps, fs, X, n, m);
    var As := seq(|n|, l requires 0 <= l < |n| => Forward(Weights(Ps), Biases(Ps), fs, X, l));
    assert forall l :: 1 <= l < |n| ==> Weights(Ps)[l] == Ps[l].W;
    As
  }

  /** The pre-activations W[l] · a[l-1] + b[l] of layers 1 .. |n| - 1; position 0 holds the input. */
  function PreActivations(Ps: seq<Layer>, As: seq<Mat>, X: Mat, n: seq<nat>, m: nat): (Zs: seq<Mat>)
    requires Shapely(Ps, n) && Activated(As, n, m)
    ensures |Zs| == |n| && Zs[0] == X
    ensures forall l :: 1 <= l < |n| ==> Zs[l] == LayerAffine(Ps[l], As[l - 1], n[l], n[l - 1], m)
  {
    [X] + seq(|n| - 1, k requires 0 <= k < |n| - 1 => LayerAffine(Ps[k + 1], As[k], n[k + 1], n[k], m))
  }

  /** W · a + b for one layer of the given sizes. */
  function LayerAffine(P: Layer, A: Mat, rows: nat, cols: nat, m: nat): (Z: Mat)
    requires LayerFits(P, rows, cols) && A.Valid() && A.Rows() == cols && A.Cols() == m
    ensures Fits(Z, rows, m) && Z == Affine(P.W, A, P.b)
  {
    Affine(P.W, A, P.b)
  }

  /** The shapes a step computes are the ones backpropagation reads. */
  lemma ShapelyBackward(Ps: seq<Layer>, Zs: seq<Mat>, fs: seq<Option<Activation>>, E: Mat, n: seq<nat>, m: nat)
    requires Shapely(Ps, n) && |fs| == |n| && (forall l :: 1 <= l < |n| ==> fs[l].Some?)
    requires |Zs| == |n| && forall l :: 1 <= l < |n| ==> Fits(Zs[l], n[l], m)
    requires Fits(E, n[|n| - 1], m)
    ensures Backward(Weights(Ps), Zs, fs, E, n, m)
  {
    var Ws := Weights(Ps);
    forall l | 1 <= l < |n|
      ensures Ws[l].Valid() && Ws[l].Rows() == n[l] && Ws[l].Cols() == n[l - 1]
    {
      assert Ws[l] == Ps[l].W && LayerFits(Ps[l], n[l], n[l - 1]);
    }
  }

  /**
   * The reference definition of step(input, target, alpha): propagate X forward through the
   * layers, take the loss error of the output against T, and backpropagate it.
   */
  function Trained(Ps: seq<Layer>, fs: seq<Option<Activation>>, X: Mat, T: Mat, J: Losses.Loss,
                   n: seq<nat>, m: nat, B1: real, B2: real, t: int, alpha: real): (Ps': seq<Layer>)
    requires Feedable(Ps, fs, X, n, m)
    requires T.Valid() && T.Rows() == n[|n| - 1] && T.Cols() == m && (m > 0 ==> J.Readable(n[|n| - 1]))
    ensures Shapely(Ps', n)
  {
    var As := ForwardPass(Ps, fs, X, n, m);
    var Zs := PreActivations(Ps, As, X, n, m);
    var E := J.ErrorGrid(As[|n| - 1], T);
    ShapelyBackward(Ps, Zs, fs, E, n, m);
    BackpropagatedShapely(Ps, As, Zs, E, fs, n, m, B1, B2, t, alpha);
    Backpropagated(Ps, As, Zs, E, fs, n, m, B1, B2, t, alpha)
  }

  /**
   * The caches As and Zs and the output O as the forward pass of X under the layers Ps leaves
   * them: every As[l] is the reference forward pass, every Zs[l] its layer's affine map, and O
   * is the last layer.
   */
  predicate Forwarded(Ps: seq<Layer>, fs: seq<Option<Activation>>, X: Mat, n: seq<nat>, m: nat,
                      As: seq<Mat>, Zs: seq<Mat>, O: Mat)
  {
    Feedable(Ps, fs, X, n, m) && |n| > 0 && |Zs| == |n| &&
    As == ForwardPass(Ps, fs, X, n, m) &&
    (forall l :: 1 <= l < |n| ==> Zs[l] == LayerAffine(Ps[l], As[l - 1], n[l], n[l - 1], m)) &&
    O == As[|n| - 1]
  }

  /** Ps' is what one step from Ps learns on the batch X with the expected outputs T. */
  predicate Learns(Ps: seq<Layer>, Ps': seq<Layer>, fs: seq<Option<Activation>>, X: Mat, T: Mat, J: Losses.Loss,
                   n: seq<nat>, m: nat, B1: real, B2: real, t: int, alpha: real)
  {
    Feedable(Ps, fs, X, n, m) &&
    T.Valid() && T.Rows() == n[|n| - 1] && T.Cols() == m && (m > 0 ==> J.Readable(n[|n| - 1])) &&
    Ps' == Trained(Ps, fs, X, T, J, n, m, B1, B2, t, alpha)
  }

  /**
   * A step computes Trained: once the caches hold the forward pass of X (activations As and,
   * above layer 0, pre-activations Zs) and the error E of the output against T, backpropagating
   * E gives the layers Trained defines, whatever the pre-activation cache of layer 0 holds.
   */
  lemma TrainedFromCaches(Ps: seq<Layer>, fs: seq<Option<Activation>>, X: Mat, T: Mat, J: Losses.Loss,
                          n: seq<nat>, m: nat, B1: real, B2: real, t: int, alpha: real, As: seq<Mat>, Zs: seq<Mat>, E: Mat)
    requires Feedable(Ps, fs, X, n, m)
    requires T.Valid() && T.Rows() == n[|n| - 1] && T.Cols() == m && (m > 0 ==> J.Readable(n[|n| - 1]))
    requires As == ForwardPass(Ps, fs, X, n, m)
    requires |Zs| == |n| && forall l :: 1 <= l < |n| ==> Zs[l] == LayerAffine(Ps[l], As[l - 1], n[l], n[l - 1], m)
    requires E == J.ErrorGrid(As[|n| - 1], T)
    ensures Activated(As, n, m) && Backward(Weights(Ps), Zs, fs, E, n, m)
    ensures Backpropagated(Ps, As, Zs, E, fs, n, m, B1, B2, t, alpha) == Trained(Ps, fs, X, T, J, n, m, B1, B2, t, alpha)
  {
    var Zs' := PreActivations(Ps, As, X, n, m);
    forall l | 1 <= l < |n|
      ensures Zs'[l] == Zs[l] && Fits(Zs[l], n[l], m)
    {
      assert LayerFits(Ps[l], n[l], n[l - 1]);
    }
    ShapelyBackward(Ps, Zs, fs, E, n, m);
    ShapelyBackward(Ps, Zs', fs, E, n, m);
    assert Trained(Ps, fs, X, T, J, n, m, B1, B2, t, alpha) == Backpropagated(Ps, As, Zs', E, fs, n, m, B1, B2, t, alpha);
    BackpropagatedIgnoresInput(Ps, As, Zs', Zs, E, fs, n, m, B1, B2, t, alpha);
  }

  /** A layer congruent to one that fits rows x cols fits them too. */
  lemma LayerFitsCongruent(P: Layer, Q: Layer, rows: nat, cols: nat)
    requires LayerFits(P, rows, cols) && Congruent(Q, P)
    ensures LayerFits(Q, rows, cols)
  {
  }

  /** Backpropagation keeps the shape of every layer: the layers it gives fit the sizes n as before. */
  lemma BackpropagatedShapely(Ps: seq<Layer>, As: seq<Mat>, Zs: seq<Mat>, E: Mat, fs: seq<Option<Activation>>,
                              n: seq<nat>, m: nat, B1: real, B2: real, t: int, alpha: real)
    requires Shapely(Ps, n) && Backward(Weights(Ps), Zs, fs, E, n, m) && Activated(As, n, m)
    ensures Shapely(Backpropagated(Ps, As, Zs, E, fs, n, m, B1, B2, t, alpha), n)
  {
    var Qs := Backpropagated(Ps, As, Zs, E, fs, n, m, B1, B2, t, alpha);
    var s := FDiv(1.0, m as real);
    forall l | 1 <= l < |n|
      ensures LayerFits(Qs[l], n[l], n[l - 1])
    {
      var D := Delta(Weights(Ps), Zs, fs, E, n, m, l);
      assert Qs[l] == Updated(Ps[l], WeightGradient(D, As[l - 1], s), BiasGradient(D, s), B1, B2, t, alpha);
      LayerFitsCongruent(Ps[l], Qs[l], n[l], n[l - 1]);
    }
  }

  /** Backpropagated reads the pre-activations of layers 1 .. |n| - 1 only. */
  lemma BackpropagatedIgnoresInput(Ps: seq<Layer>, As: seq<Mat>, Zs: seq<Mat>, Zs': seq<Mat>, E: Mat, fs: seq<Option<Activation>>,
                                   n: seq<nat>, m: nat, B1: real, B2: real, t: int, alpha: real)
    requires Shapely(Ps, n) && Activated(As, n, m)
    requires Backward(Weights(Ps), Zs, fs, E, n, m) && Backward(Weights(Ps), Zs', fs, E, n, m)
    requires forall l :: 1 <= l < |n| ==> Zs'[l] == Zs[l]
    ensures Backpropagated(Ps, As, Zs', E, fs, n, m, B1, B2, t, alpha) == Backpropagated(Ps, As, Zs, E, fs, n, m, B1, B2, t, alpha)
  {
    var Ws := Weights(Ps);
    forall l | 1 <= l < |n|
      ensures Delta(Ws, Zs', fs, E, n, m, l) == Delta(Ws, Zs, fs, E, n, m, l)
    {
      DeltaIgnoresInput(Ws, Zs, Zs', fs, E, n, m, l);
    }
  }

  /** Every cell is zero. */
  predicate AllZero(s: seq<real>)
  {
    forall p :: 0 <= p < |s| ==> s[p] == 0.0
  }

  /** Every moment of layers 1 .. |Ps| - 1 is zero, as the constructor leaves them. */
  predicate ZeroMoments(Ps: seq<Layer>)
  {
    forall l :: 1 <= l < |Ps| ==>
      AllZero(Ps[l].mW.data) && AllZero(Ps[l].vW.data) && AllZero(Ps[l].mb.data) && AllZero(Ps[l].vb.data)
  }

  class Adam {
    const model: Model
    const J: Losses.Loss
    const B1: real
    const B2: real
    /** model.L, the number of weight layers. */
    const L: nat
    /** Gradient buffers, shaped like the model's a, z, W and b (deep copies of them). */
    const da: seq<Matrix?>
    const dz: seq<Matrix?>
    const dW: seq<Matrix?>
    const db: seq<Matrix?>
    /** The forward pass copies the network's output here. */
    const output: Matrix
    /** The running first and second moments of the weights and the biases; null at position 0. */
    const mW: seq<Matrix?>
    const vW: seq<Matrix?>
    const mb: seq<Matrix?>
    const vb: seq<Matrix?>
    /** The number of the next step, which enters the bias correction. */
    var t: int
    /** The role of each data buffer the optimiser owns. */
    ghost const roles: map<array<real>, Role>

    /** The arrays have L + 1 entries, with the nulls where the constructor leaves them. */
    ghost predicate Sized()
      reads model
    {
      Dimensioned(model, L, da, dz, dW, db, mW, vW, mb, vb)
    }

    /** The matrices of layer l. */
    ghost function LayerMatrices(l: nat): set<Matrix?>
      reads model
      requires Sized() && l <= L
    {
      {da[l], dz[l], dW[l], db[l], mW[l], vW[l], mb[l], vb[l]}
    }

    /** Layer l's buffers have their shapes and roles. */
    ghost predicate GradLaid(l: nat)
      reads model, if Sized() && l <= L then LayerMatrices(l) else {}
      requires Sized() && l <= L
    {
      BuffersLaid(model.n, model.m, l, da[l], dz[l], dW[l], db[l], mW[l], vW[l], mb[l], vb[l], roles)
    }

    /** Every matrix the optimiser owns. */
    ghost function Matrices(): (S: set<Matrix?>)
      ensures output in S
      ensures forall l :: 0 <= l < |da| ==> da[l] in S
      ensures forall l :: 0 <= l < |dz| ==> dz[l] in S
      ensures forall l :: 0 <= l < |dW| ==> dW[l] in S
      ensures forall l :: 0 <= l < |db| ==> db[l] in S
      ensures forall l :: 0 <= l < |mW| ==> mW[l] in S
      ensures forall l :: 0 <= l < |vW| ==> vW[l] in S
      ensures forall l :: 0 <= l < |mb| ==> mb[l] in S
      ensures forall l :: 0 <= l < |vb| ==> vb[l] in S
    {
      {output} + (set l | 0 <= l < |da| :: da[l]) + (set l | 0 <= l < |dz| :: dz[l]) +
      (set l | 0 <= l < |dW| :: dW[l]) + (set l | 0 <= l < |db| :: db[l]) +
      (set l | 0 <= l < |mW| :: mW[l]) + (set l | 0 <= l < |vW| :: vW[l]) +
      (set l | 0 <= l < |mb| :: mb[l]) + (set l | 0 <= l < |vb| :: vb[l])
    }

    /** The model is valid, every buffer has its shape and role, and no buffer is the model's. */
    ghost predicate Valid()
      reads this, model, model.Matrices(), Matrices()
    {
      Assembled(model, L, output, da, dz, dW, db, mW, vW, mb, vb, roles)
    }

    /** The buffers of the given kinds. */
    ghost function OfKind(kinds: set<Kind>): set<array<real>>
    {
      set x | x in roles && roles[x].kind in kinds
    }

    /** The buffers clearCache zeroes and step overwrites. */
    ghost function Scratch(): set<array<real>>
    {
      OfKind({DA, DZ, DW, DB, Out})
    }

    /** The gradient buffers backpropagation writes: the scratch buffers other than output. */
    ghost function Gradients(): set<array<real>>
    {
      OfKind({DA, DZ, DW, DB})
    }

    /** The buffers of the running moments. */
    ghost function Moments(): set<array<real>>
    {
      OfKind({MW, VW, MB, VB})
    }

    /** The objects whose values make up the learned state. */
    ghost function Held(): set<object>
      reads model
    {
      Objects(model.W) + Objects(model.b) + Objects(mW) + Objects(vW) + Objects(mb) + Objects(vb)
    }

    /** The matrices and buffers that hold layer l's weights, bias and moments. */
    ghost function ParamObjects(l: nat): set<object>
      reads model
      requires Sized() && 1 <= l <= L
    {
      {model.W[l], model.W[l].data, model.b[l], model.b[l].data, mW[l], mW[l].data, vW[l], vW[l].data,
       mb[l], mb[l].data, vb[l], vb[l].data}
    }

    /** The weights, bias and moments of layer l in the current heap. */
    ghost function LayerParams(l: nat): Layer
      reads model, if Sized() && 1 <= l <= L then ParamObjects(l) else {}
      requires Sized() && 1 <= l <= L
    {
      Layer(model.W[l].View(), model.b[l].View(), mW[l].View(), vW[l].View(), mb[l].View(), vb[l].View())
    }

    /** Layer l's objects are among those the learned state reads. */
    lemma ParamsHeld(l: nat)
      requires Sized() && 1 <= l <= L
      ensures ParamObjects(l) <= Held()
    {
      assert model.W[l] in Objects(model.W) && model.W[l].data in Objects(model.W);
      assert model.b[l] in Objects(model.b) && model.b[l].data in Objects(model.b);
      assert mW[l] in Objects(mW) && mW[l].data in Objects(mW) && vW[l] in Objects(vW) && vW[l].data in Objects(vW);
      assert mb[l] in Objects(mb) && mb[l].data in Objects(mb) && vb[l] in Objects(vb) && vb[l].data in Objects(vb);
    }

    /** What training changes: the weights, biases and moments of every layer. */
    ghost function Learned(): (Ps: seq<Layer>)
      reads model, Held()
      requires Sized()
      ensures |Ps| == L + 1 && Ps[0] == NoLayer
      ensures forall l :: 1 <= l <= L ==> Ps[l] == LayerParams(l)
    {
      LearnedTo(L)
    }

    /** The learned state of layers 0 .. k. */
    ghost function LearnedTo(k: nat): (Ps: seq<Layer>)
      reads model, Held()
      requires Sized() && k <= L
      ensures |Ps| == k + 1 && Ps[0] == NoLayer
      ensures forall l :: 1 <= l <= k ==> Ps[l] == LayerParams(l)
      decreases k
    {
      if k == 0 then [NoLayer] else ParamsHeld(k); LearnedTo(k - 1) + [LayerParams(k)]
    }

    /**
     * Adam(model, J, B1, B2): the output buffer, deep copies of the model's W, b, a and z as
     * gradient buffers, and zero moments shaped like W[l] and b[l] for l = 1 .. L; t starts at 1.
     */
    constructor(model: Model, J: Losses.Loss, B1: real, B2: real)
      requires model.Valid()
      ensures Valid() && this.model == model && this.J == J && this.B1 == B1 && this.B2 == B2 && L == model.L
      ensures t == 1
      ensures output.data[..] == Zeros(model.outputSize * model.m)
      ensures Fresh()
      ensures forall x :: x in roles ==> fresh(x)
    {
      var out, da', dz', dW', db', mW', vW', mb', vb', R := Allocate(model);
      assert model.Valid();
      this.model := model;
      this.J := J;
      this.B1 := B1;
      this.B2 := B2;
      L := model.L;
      output := out;
      da, dz, dW, db := da', dz', dW', db';
      mW, vW, mb, vb := mW', vW', mb', vb';
      t := 1;
      roles := R;
      new;
      assert Assembled(model, L, out, da', dz', dW', db', mW', vW', mb', vb', R);
    }

    /** The constructor's allocations: the output buffer, the gradient buffers and the moments. */
    static method Allocate(model: Model)
      returns (out: Matrix, da: seq<Matrix?>, dz: seq<Matrix?>, dW: seq<Matrix?>, db: seq<Matrix?>,
               mW: seq<Matrix?>, vW: seq<Matrix?>, mb: seq<Matrix?>, vb: seq<Matrix?>, ghost roles: map<array<real>, Role>)
      requires model.Valid()
      ensures Assembled(model, model.L, out, da, dz, dW, db, mW, vW, mb, vb, roles)
      ensures out.data[..] == Zeros(model.outputSize * model.m)
      ensures forall l :: 1 <= l <= model.L ==> Zero(mW[l]) && Zero(vW[l]) && Zero(mb[l]) && Zero(vb[l])
      ensures forall x :: x in roles ==> fresh(x)
    {
      out := new Matrix(model.outputSize, model.m);
      ghost var R := map[out.data := Role(Out, 0)];
      ghost var R4;
      model.Unmoved();
      da, dz, dW, db, R4 := AllocateGradients(model, R);
      model.Unmoved();
      mW, vW, mb, vb, roles := AllocateMoments(model, R4);
      model.Unmoved();
      forall l | 0 <= l <= model.L
        ensures BuffersLaid(model.n, model.m, l, da[l], dz[l], dW[l], db[l], mW[l], vW[l], mb[l], vb[l], roles)
      {
        assert GradFitted(model.n, model.m, l, da[l], dz[l], dW[l], db[l], R4);
        assert MomentStart(model.n, l, mW[l], vW[l], mb[l], vb[l], roles);
      }
      forall l | 1 <= l <= model.L
        ensures Zero(mW[l]) && Zero(vW[l]) && Zero(mb[l]) && Zero(vb[l])
      {
        assert MomentStart(model.n, l, mW[l], vW[l], mb[l], vb[l], roles);
      }
    }

    /** Every moment buffer is zero, as the constructor leaves them. */
    ghost predicate Fresh()
      reads model, Objects(mW), Objects(vW), Objects(mb), Objects(vb)
    {
      Sized() && forall l :: 1 <= l <= L ==> Zero(mW[l]) && Zero(vW[l]) && Zero(mb[l]) && Zero(vb[l])
    }

    /** Zero moment buffers make zero moments in the learned state. */
    lemma StartsAtZero()
      requires Fresh()
      ensures ZeroMoments(Learned())
    {
      forall l | 1 <= l <= L
        ensures AllZero(Learned()[l].mW.data) && AllZero(Learned()[l].vW.data)
        ensures AllZero(Learned()[l].mb.data) && AllZero(Learned()[l].vb.data)
      {
        assert Zero(mW[l]) && Zero(vW[l]) && Zero(mb[l]) && Zero(vb[l]);
      }
    }

    /** The constructor's deep copies of W, b, a and z, which become dW, db, da and dz. */
    static method AllocateGradients(model: Model, ghost roles: map<array<real>, Role>)
      returns (da: seq<Matrix?>, dz: seq<Matrix?>, dW: seq<Matrix?>, db: seq<Matrix?>, ghost roles': map<array<real>, Role>)
      requires model.Valid()
      ensures |da| == |dz| == |dW| == |db| == model.L + 1
      ensures forall l :: 0 <= l <= model.L ==> GradFitted(model.n, model.m, l, da[l], dz[l], dW[l], db[l], roles')
      ensures forall x :: x in roles ==> x in roles' && roles'[x] == roles[x]
      ensures forall x :: x in roles' && x !in roles ==> fresh(x)
    {
      forall l | 0 <= l <= model.L
        ensures model.a[l].Valid() && model.z[l].Valid() && model.b[l].Valid()
        ensures model.W[l] != null ==> model.W[l].Valid()
      {
        assert model.LayerLaid(l);
      }
      ghost var R1, R2, R3;
      dW, R1 := CloneRegistered(model.W, roles, DW);
      db, R2 := CloneRegistered(model.b, R1, DB);
      da, R3 := CloneRegistered(model.a, R2, DA);
      dz, roles' := CloneRegistered(model.z, R3, DZ);
      model.Unmoved();
      forall l | 0 <= l <= model.L
        ensures GradFitted(model.n, model.m, l, da[l], dz[l], dW[l], db[l], roles')
      {
        assert model.LayerLaid(l);
      }
    }

    /** deepClone of one of the model's arrays, with the buffers of the copies registered as kind. */
    static method CloneRegistered(Ms: seq<Matrix?>, ghost roles: map<array<real>, Role>, ghost kind: Kind)
      returns (cloned: seq<Matrix?>, ghost roles': map<array<real>, Role>)
      requires forall k :: 0 <= k < |Ms| && Ms[k] != null ==> Ms[k].Valid()
      ensures |cloned| == |Ms|
      ensures forall k :: 0 <= k < |Ms| ==> (cloned[k] == null <==> Ms[k] == null)
      ensures forall k :: 0 <= k < |Ms| && Ms[k] != null ==>
                fresh(cloned[k]) && cloned[k].rows == Ms[k].rows && cloned[k].cols == Ms[k].cols &&
                cloned[k].transposed == Ms[k].transposed && cloned[k].Valid() && Holds(roles', cloned[k], Role(kind, k))
      ensures forall x :: x in roles ==> x in roles' && roles'[x] == roles[x]
      ensures forall x :: x in roles' && x !in roles ==> fresh(x)
    {
      cloned := Matrix.DeepClone(Ms);
      roles' := roles;
      ghost var k := 0;
      while k < |cloned|
        invariant 0 <= k <= |cloned|
        invariant forall x :: x in roles ==> x in roles' && roles'[x] == roles[x]
        invariant forall x :: x in roles' && x !in roles ==> fresh(x)
        invariant forall j :: 0 <= j < k && cloned[j] != null ==> Holds(roles', cloned[j], Role(kind, j))
        invariant forall j :: k <= j < |cloned| && cloned[j] != null ==> cloned[j].data !in roles'
      {
        if cloned[k] != null {
          roles' := roles'[cloned[k].data := Role(kind, k)];
        }
        k := k + 1;
      }
    }

    /** A matrix whose buffer is all zero; null counts as zero. */
    static ghost predicate Zero(M: Matrix?)
      reads M, if M != null then {M.data} else {}
    {
      M != null ==> M.data[..] == Zeros(M.data.Length)
    }

    /** The moments of layer l as the constructor leaves them: fitted and zero. */
    static ghost predicate MomentStart(n: seq<nat>, l: nat, mWl: Matrix?, vWl: Matrix?, mbl: Matrix?, vbl: Matrix?,
                                       roles: map<array<real>, Role>)
      reads mWl, vWl, mbl, vbl
      reads if mWl != null then {mWl.data} else {}, if vWl != null then {vWl.data} else {}
      reads if mbl != null then {mbl.data} else {}, if vbl != null then {vbl.data} else {}
      requires l < |n|
    {
      MomentFitted(n, l, mWl, vWl, mbl, vbl, roles) && Zero(mWl) && Zero(vWl) && Zero(mbl) && Zero(vbl)
    }

    /** One pass of the constructor's loop: emptyCopyOf(W[l]) twice and emptyCopyOf(b[l]) twice. */
    static method AllocateLayer(model: Model, l: nat, ghost roles: map<array<real>, Role>)
      returns (mWl: Matrix, vWl: Matrix, mbl: Matrix, vbl: Matrix, ghost roles': map<array<real>, Role>)
      requires model.Valid() && 1 <= l <= model.L
      ensures MomentStart(model.n, l, mWl, vWl, mbl, vbl, roles')
      ensures forall x :: x in roles ==> x in roles' && roles'[x] == roles[x]
      ensures forall x :: x in roles' && x !in roles ==> fresh(x)
    {
      assert model.LayerLaid(l);
      mWl := Matrix.EmptyCopyOf(model.W[l]);
      vWl := Matrix.EmptyCopyOf(model.W[l]);
      mbl := Matrix.EmptyCopyOf(model.b[l]);
      vbl := Matrix.EmptyCopyOf(model.b[l]);
      roles' := roles[mWl.data := Role(MW, l)][vWl.data := Role(VW, l)][mbl.data := Role(MB, l)][vbl.data := Role(VB, l)];
    }

    /** The constructor's loop over l = 1 .. L, with null moments at position 0. */
    static method AllocateMoments(model: Model, ghost roles: map<array<real>, Role>)
      returns (mW: seq<Matrix?>, vW: seq<Matrix?>, mb: seq<Matrix?>, vb: seq<Matrix?>, ghost roles': map<array<real>, Role>)
      requires model.Valid()
      ensures |mW| == |vW| == |mb| == |vb| == model.L + 1
      ensures forall l :: 0 <= l <= model.L ==> MomentStart(model.n, l, mW[l], vW[l], mb[l], vb[l], roles')
      ensures forall x :: x in roles ==> x in roles' && roles'[x] == roles[x]
      ensures forall x :: x in roles' && x !in roles ==> fresh(x)
    {
      mW, vW, mb, vb := [null], [null], [null], [null];
      roles' := roles;
      while |mW| <= model.L
        invariant model.Valid()
        invariant 1 <= |mW| <= model.L + 1 && |vW| == |mb| == |vb| == |mW|
        invariant forall l :: 0 <= l < |mW| ==> MomentStart(model.n, l, mW[l], vW[l], mb[l], vb[l], roles')
        invariant forall x :: x in roles ==> x in roles' && roles'[x] == roles[x]
        invariant forall x :: x in roles' && x !in roles ==> fresh(x)
        decreases model.L + 1 - |mW|
      {
        var mWl, vWl, mbl, vbl, R := AllocateLayer(model, |mW|, roles');
        forall l | 0 <= l < |mW|
          ensures MomentStart(model.n, l, mW[l], vW[l], mb[l], vb[l], R)
        {
          assert MomentStart(model.n, l, mW[l], vW[l], mb[l], vb[l], roles');
        }
        roles' := R;
        mW, vW, mb, vb := mW + [mWl], vW + [vWl], mb + [mbl], vb + [vbl];
        model.Unmoved();
      }
    }

    /** clearCache(): zeroes every gradient buffer and the output buffer. */
    method ClearCache()
      requires Valid()
      modifies Scratch()
      ensures Valid()
      ensures output.data[..] == Zeros(output.data.Length)
      ensures forall l :: 0 <= l <= L ==> Zero(da[l]) && Zero(dz[l]) && Zero(dW[l]) && Zero(db[l])
    {
      forall l | 0 <= l <= L
        ensures GradFitted(model.n, model.m, l, da[l], dz[l], dW[l], db[l], roles)
      {
        assert GradLaid(l);
      }
      ClearBuffers(da, dz, dW, db, output, roles);
      forall l | 0 <= l <= L
        ensures model.LayerLaid(l)
        ensures BuffersLaid(model.n, model.m, l, da[l], dz[l], dW[l], db[l], mW[l], vW[l], mb[l], vb[l], roles)
      {
        assert old(model.LayerLaid(l)) && old(GradLaid(l));
      }
    }

    /** clearCache's four loops, over da, dz, dW and db, then output.clear(). */
    static method ClearBuffers(da: seq<Matrix?>, dz: seq<Matrix?>, dW: seq<Matrix?>, db: seq<Matrix?>, output: Matrix,
                               ghost roles: map<array<real>, Role>)
      requires forall k :: 0 <= k < |da| && da[k] != null ==> Holds(roles, da[k], Role(DA, k))
      requires forall k :: 0 <= k < |dz| && dz[k] != null ==> Holds(roles, dz[k], Role(DZ, k))
      requires forall k :: 0 <= k < |dW| && dW[k] != null ==> Holds(roles, dW[k], Role(DW, k))
      requires forall k :: 0 <= k < |db| && db[k] != null ==> Holds(roles, db[k], Role(DB, k))
      requires Holds(roles, output, Role(Out, 0))
      modifies set x | x in roles && roles[x].kind in {DA, DZ, DW, DB, Out}
      ensures output.data[..] == Zeros(output.data.Length)
      ensures forall k :: 0 <= k < |da| ==> Zero(da[k])
      ensures forall k :: 0 <= k < |dz| ==> Zero(dz[k])
      ensures forall k :: 0 <= k < |dW| ==> Zero(dW[k])
      ensures forall k :: 0 <= k < |db| ==> Zero(db[k])
    {
      ClearAll(da, roles, DA);
      label ClearedA:
      ClearAll(dz, roles, DZ);
      label ClearedZ:
      ClearAll(dW, roles, DW);
      label ClearedW:
      ClearAll(db, roles, DB);
      label ClearedB:
      output.Clear();
      forall k | 0 <= k < |da|
        ensures Zero(da[k])
      {
        assert old@ClearedA(Zero(da[k]));
      }
      forall k | 0 <= k < |dz|
        ensures Zero(dz[k])
      {
        assert old@ClearedZ(Zero(dz[k]));
      }
      forall k | 0 <= k < |dW|
        ensures Zero(dW[k])
      {
        assert old@ClearedW(Zero(dW[k]));
      }
      forall k | 0 <= k < |db|
        ensures Zero(db[k])
      {
        assert old@ClearedB(Zero(db[k]));
      }
    }

    /** One of clearCache's loops: clear() on every non-null matrix of the array. */
    static method ClearAll(ms: seq<Matrix?>, ghost roles: map<array<real>, Role>, ghost kind: Kind)
      requires forall k :: 0 <= k < |ms| && ms[k] != null ==> Holds(roles, ms[k], Role(kind, k))
      modifies set x | x in roles && roles[x].kind == kind
      ensures forall k :: 0 <= k < |ms| ==> Zero(ms[k])
    {
      var i := 0;
      while i < |ms|
        invariant 0 <= i <= |ms|
        invariant forall k :: 0 <= k < i ==> Zero(ms[k])
      {
        if ms[i] != null {
          ms[i].Clear();
        }
        i := i + 1;
      }
    }

    /** The gradient buffers and the output hold zeros, as clearCache leaves them. */
    ghost predicate Cleared()
      reads this, model, output, output.data, Objects(da), Objects(dz), Objects(dW), Objects(db)
    {
      Sized() && output.data[..] == Zeros(output.data.Length) &&
      forall l :: 0 <= l <= L ==> Zero(da[l]) && Zero(dz[l]) && Zero(dW[l]) && Zero(db[l])
    }

    /** Writes that spare the weights, biases and moments leave the learned state as it was. */
    twostate lemma Unlearned()
      requires old(Valid()) && Valid()
      requires unchanged(model.Parameters()) && unchanged(Moments())
      ensures Learned() == old(Learned())
    {
      forall k | 1 <= k <= L
        ensures LayerParams(k) == old(LayerParams(k))
      {
        assert old(model.LayerLaid(k)) && old(GradLaid(k)) && model.LayerLaid(k) && GradLaid(k);
        assert model.W[k].data in model.Parameters() && model.b[k].data in model.Parameters();
        assert mW[k].data in Moments() && vW[k].data in Moments() && mb[k].data in Moments() && vb[k].data in Moments();
      }
    }

    /**
     * The first half of step once its shape checks pass: clearCache(), then
     * model.forwardPropagate(input, output), which compares the physical shapes and copies the
     * raw buffer of input into a[0].
     */
    method ForwardHalf(input: Matrix) returns (r: Outcome)
      requires Valid() && input.Valid() && input.data !in model.buffers && input.data !in roles
      requires input.Rows() == model.inputSize && input.Cols() == model.m
      modifies Scratch(), model.Caches()
      ensures Valid() && Learned() == old(Learned())
      ensures r.Pass? <==> input.rows == model.inputSize && input.cols == model.m
      ensures r.Fail? ==> r.error == IllegalArgument && Cleared()
      ensures r.Pass? ==> model.Propagated() && output.View() == model.a[L].View()
      ensures r.Pass? ==> model.a[0].View() == Mat(model.inputSize, model.m, false, old(input.data[..]))
    {
      Apart();
      ClearCache();
      label cleared:
      assert Holds(roles, output, Role(Out, 0)) && Shaped(output, model.outputSize, model.m);
      assert model.LayerLaid(0) && model.LayerLaid(L);
      r := model.ForwardPropagate(input, output);
      Kept();
      Unlearned();
      if r.Fail? {
        StillCleared@cleared();
      }
    }

    /**
     * The second half of step once the caches hold the forward pass: J.getError(output, target,
     * dz[L]), then computeBackPropagationStep for l = L down to 1. getError fails only on an
     * empty binary cross-entropy output with a non-empty batch, before anything is learned.
     */
    method LearnHalf(target: Matrix, alpha: real) returns (r: Outcome)
      requires Valid() && target.Valid() && target.data !in model.buffers && target.data !in roles
      requires target.Rows() == model.outputSize && target.Cols() == model.m
      requires model.Propagated() && output.View() == model.a[L].View()
      modifies Scratch(), Moments(), model.Parameters(), model.Matrices()
      ensures Valid() && output.View() == old(output.View())
      ensures Views(model.a) == old(Views(model.a)) && Views(model.z) == old(Views(model.z))
      ensures r.Pass? <==> (model.m > 0 ==> J.Readable(model.outputSize))
      ensures r.Fail? ==> r.error == IndexOutOfBounds && Learned() == old(Learned())
      ensures r.Pass? ==>
                Learns(old(Learned()), Learned(), model.g, old(model.a[0].View()), old(target.View()), J,
                       model.n, model.m, B1, B2, t, alpha)
      ensures r.Pass? ==>
                Forwarded(old(Learned()), model.g, old(model.a[0].View()), model.n, model.m,
                          Views(model.a), Views(model.z), output.View())
    {
      ForwardedCaches();
      ghost var X, T, Ps := model.a[0].View(), target.View(), Learned();
      ghost var As, Zs, O := Views(model.a), Views(model.z), output.View();
      assert Forwarded(Ps, model.g, X, model.n, model.m, As, Zs, O);
      r := ErrorHalf(target);
      if r.Fail? {
        return;
      }
      assert Views(model.a) == As && Views(model.z) == Zs && Learned() == Ps;
      assert dz[L].View() == J.ErrorGrid(As[L], T);
      BackHalf(X, T, alpha);
    }

    /** J.getError(output, target, dz[L]) on the output of the forward pass. */
    method ErrorHalf(target: Matrix) returns (r: Outcome)
      requires Valid() && target.Valid() && target.data !in model.buffers && target.data !in roles
      requires target.Rows() == model.outputSize && target.Cols() == model.m
      requires output.View() == model.a[L].View()
      modifies Gradients()
      ensures Valid() && model.LayerLaid(L) && Learned() == old(Learned()) && output.View() == old(output.View())
      ensures Views(model.a) == old(Views(model.a)) && Views(model.z) == old(Views(model.z))
      ensures r.Pass? <==> (model.m > 0 ==> J.Readable(model.outputSize))
      ensures r.Fail? ==> r.error == IndexOutOfBounds
      ensures r.Pass? ==> dz[L].View() == J.ErrorGrid(model.a[L].View(), target.View())
    {
      Apart();
      OutputApart();
      assert model.LayerLaid(L) && GradLaid(L);
      label forward:
      r := J.GetError(output, target, dz[L]);
      Kept();
      Unlearned();
      CachesKept@forward();
      if r.Pass? {
        J.ErrorGridFilled(dz[L].View(), model.a[L].View(), target.View());
      }
    }

    /**
     * The backward half of step: once the caches hold the forward pass of X and dz[L] holds the
     * loss error against T, the loop of computeBackPropagationStep learns what Trained defines.
     */
    method BackHalf(ghost X: Mat, ghost T: Mat, alpha: real)
      requires Valid() && Feedable(Learned(), model.g, X, model.n, model.m)
      requires Views(model.a) == ForwardPass(Learned(), model.g, X, model.n, model.m)
      requires forall l :: 1 <= l <= L ==>
                 Views(model.z)[l] == LayerAffine(Learned()[l], Views(model.a)[l - 1], model.n[l], model.n[l - 1], model.m)
      requires T.Valid() && T.Rows() == model.outputSize && T.Cols() == model.m
      requires model.m > 0 ==> J.Readable(model.outputSize)
      requires dz[L].View() == J.ErrorGrid(Views(model.a)[L], T)
      modifies Scratch(), Moments(), model.Parameters(), model.Matrices()
      ensures output.View() == old(output.View())
      ensures Views(model.a) == old(Views(model.a)) && Views(model.z) == old(Views(model.z))
      ensures Valid() && Learns(old(Learned()), Learned(), model.g, X, T, J, model.n, model.m, B1, B2, t, alpha)
    {
      ghost var Ps, As, Zs, E := Learned(), Views(model.a), Views(model.z), dz[L].View();
      ValidTrainable();
      Backpropagate(alpha);
      CachesViewed();
      TrainedFromCaches(Ps, model.g, X, T, J, model.n, model.m, B1, B2, t, alpha, As, Zs, E);
    }

    /** The output buffer lies outside what backpropagation may write. */
    lemma OutputApart()
      requires Valid()
      ensures output.data !in Gradients() && output.data !in Moments() && output.data !in model.Parameters()
      ensures output !in model.Matrices()
    {
      assert Holds(roles, output, Role(Out, 0)) && output.data !in model.buffers;
      forall l | 0 <= l <= L
        ensures output != model.a[l] && output != model.z[l] && output != model.b[l] && output != model.W[l]
      {
        assert model.LayerLaid(l);
      }
    }

    /** Caches whose every layer keeps its view keep their views. */
    twostate lemma CachesViewed()
      requires old(Valid()) && Valid()
      requires forall k :: 0 <= k <= L ==> model.a[k].View() == old(model.a[k].View()) && model.z[k].View() == old(model.z[k].View())
      ensures Views(model.a) == old(Views(model.a)) && Views(model.z) == old(Views(model.z))
    {
    }

    /** The logical shapes step accepts: target is outputSize x m and input is inputSize x m. */
    predicate Takes(input: Matrix, target: Matrix)
      reads model, input, target
    {
      target.Rows() == model.outputSize && target.Cols() == model.m &&
      input.Rows() == model.inputSize && input.Cols() == model.m
    }

    /**
     * step(input, target, alpha): checks the logical shapes of target against output and of
     * input against the model, clears the gradients, propagates input forward, takes the loss
     * error and backpropagates it with learning rate alpha, then advances t. The forward pass
     * compares the physical shape of input and reads its raw buffer as an inputSize x m grid.
     */
    method Step(input: Matrix, target: Matrix, alpha: real) returns (r: Outcome)
      requires Valid() && input.Valid() && target.Valid()
      requires input.data !in model.buffers && input.data !in roles
      requires target.data !in model.buffers && target.data !in roles
      modifies this, Scratch(), Moments(), model.Parameters(), model.Matrices(), model.Caches()
      ensures Valid()
      ensures r.Pass? <==>
                old(Takes(input, target)) && input.rows == model.inputSize && input.cols == model.m &&
                (model.m > 0 ==> J.Readable(model.outputSize))
      ensures !old(Takes(input, target)) ==>
                r == Fail(IllegalArgument) && t == old(t) &&
                unchanged(Scratch()) && unchanged(Moments()) && unchanged(model.Parameters()) &&
                unchanged(model.Caches()) && unchanged(model.Matrices())
      ensures old(Takes(input, target)) && (input.rows != model.inputSize || input.cols != model.m) ==>
                r == Fail(IllegalArgument) && t == old(t) && Cleared() && Learned() == old(Learned())
      ensures r.Fail? && r.error == IndexOutOfBounds ==> t == old(t) && Learned() == old(Learned())
      ensures r.Pass? ==>
                t == old(t) + 1 &&
                Learns(old(Learned()), Learned(), model.g, Mat(model.inputSize, model.m, false, old(input.data[..])),
                       old(target.View()), J, model.n, model.m, B1, B2, old(t), alpha)
      ensures r.Pass? ==>
                Forwarded(old(Learned()), model.g, Mat(model.inputSize, model.m, false, old(input.data[..])), model.n, model.m,
                          Views(model.a), Views(model.z), output.View())
    {
      if target.Rows() != output.Rows() || target.Cols() != output.Cols() {
        return Fail(IllegalArgument);
      }
      if input.Rows() != model.inputSize || input.Cols() != model.m {
        return Fail(IllegalArgument);
      }
      r := Run(input, target, alpha);
    }

    /** step once its logical shape checks have passed. */
    method Run(input: Matrix, target: Matrix, alpha: real) returns (r: Outcome)
      requires Valid() && input.Valid() && target.Valid() && Takes(input, target)
      requires input.data !in model.buffers && input.data !in roles
      requires target.data !in model.buffers && target.data !in roles
      modifies this, Scratch(), Moments(), model.Parameters(), model.Matrices(), model.Caches()
      ensures Valid()
      ensures r.Pass? <==> input.rows == model.inputSize && input.cols == model.m && (model.m > 0 ==> J.Readable(model.outputSize))
      ensures input.rows != model.inputSize || input.cols != model.m ==>
                r == Fail(IllegalArgument) && t == old(t) && Cleared() && Learned() == old(Learned())
      ensures r.Fail? && r.error == IndexOutOfBounds ==> t == old(t) && Learned() == old(Learned())
      ensures r.Pass? ==>
                t == old(t) + 1 &&
                Learns(old(Learned()), Learned(), model.g, Mat(model.inputSize, model.m, false, old(input.data[..])),
                       old(target.View()), J, model.n, model.m, B1, B2, old(t), alpha)
      ensures r.Pass? ==>
                Forwarded(old(Learned()), model.g, Mat(model.inputSize, model.m, false, old(input.data[..])), model.n, model.m,
                          Views(model.a), Views(model.z), output.View())
    {
      r := ForwardHalf(input);
      if r.Fail? {
        return;
      }
      assert target.data !in Scratch() && target.data !in model.Caches();
      assert target.View() == old(target.View());
      ghost var X := model.a[0].View();
      assert X == Mat(model.inputSize, model.m, false, old(input.data[..]));
      r := Finish(target, alpha);
    }

    /** step once the forward pass is done: getError, backpropagation, then t++. */
    method Finish(target: Matrix, alpha: real) returns (r: Outcome)
      requires Valid() && target.Valid() && target.data !in model.buffers && target.data !in roles
      requires target.Rows() == model.outputSize && target.Cols() == model.m
      requires model.Propagated() && output.View() == model.a[L].View()
      modifies this, Scratch(), Moments(), model.Parameters(), model.Matrices()
      ensures Valid()
      ensures r.Pass? <==> (model.m > 0 ==> J.Readable(model.outputSize))
      ensures r.Fail? ==> r.error == IndexOutOfBounds && t == old(t) && Learned() == old(Learned())
      ensures r.Pass? ==>
                t == old(t) + 1 &&
                Learns(old(Learned()), Learned(), model.g, old(model.a[0].View()), old(target.View()), J,
                       model.n, model.m, B1, B2, old(t), alpha) &&
                Forwarded(old(Learned()), model.g, old(model.a[0].View()), model.n, model.m,
                          Views(model.a), Views(model.z), output.View())
    {
      ghost var X, T, Ps := model.a[0].View(), target.View(), Learned();
      r := LearnHalf(target, alpha);
      if r.Fail? {
        return;
      }
      ghost var As, Zs, O, Qs := Views(model.a), Views(model.z), output.View(), Learned();
      assert Forwarded(Ps, model.g, X, model.n, model.m, As, Zs, O);
      assert Learns(Ps, Qs, model.g, X, T, J, model.n, model.m, B1, B2, t, alpha);
      Tick();
    }

    /** The caches keep their views while no buffer of the model is written. */
    twostate lemma CachesKept()
      requires old(Valid()) && Valid()
      requires forall M: Matrix :: old(allocated(M)) ==> M.transposed == old(M.transposed)
      requires forall x :: x in model.buffers ==> x[..] == old(x[..])
      ensures Views(model.a) == old(Views(model.a)) && Views(model.z) == old(Views(model.z))
    {
      forall k | 0 <= k <= L
        ensures model.a[k].View() == old(model.a[k].View()) && model.z[k].View() == old(model.z[k].View())
      {
        assert old(model.LayerLaid(k));
      }
    }

    /** Buffers that were cleared stay cleared while no buffer of the optimiser is written. */
    twostate lemma StillCleared()
      requires old(Valid()) && old(Cleared()) && Valid()
      requires forall x :: x in Scratch() ==> x[..] == old(x[..])
      ensures Cleared()
    {
      forall l | 0 <= l <= L
        ensures Zero(da[l]) && Zero(dz[l]) && Zero(dW[l]) && Zero(db[l])
      {
        assert old(GradLaid(l));
      }
    }

    /** t++: advances the step counter and nothing else. */
    method Tick()
      requires Valid()
      modifies this
      ensures Valid() && t == old(t) + 1 && Learned() == old(Learned())
      ensures Views(model.a) == old(Views(model.a)) && Views(model.z) == old(Views(model.z)) && output.View() == old(output.View())
    {
      Unheld();
      t := t + 1;
      Kept();
      forall k | 0 <= k <= L
        ensures model.a[k].View() == old(model.a[k].View()) && model.z[k].View() == old(model.z[k].View())
      {
      }
      CachesViewed();
    }

    /** The optimiser itself holds none of the learned state, so advancing t leaves it as it is. */
    lemma Unheld()
      ensures this !in Held()
    {
    }

    /** The buffers step clears and the caches forward propagation writes are not the learned state. */
    lemma Apart()
      requires Valid()
      ensures forall x :: x in Scratch() ==> x !in model.Parameters() && x !in Moments()
      ensures forall x :: x in model.Caches() ==> x !in model.Parameters() && x !in Moments()
    {
    }

    /**
     * The shapes backpropagation reads: the learned layers fit the sizes n, every activation
     * cache a[l] is an n[l] x m grid, and the pre-activations and the output error in dz[L]
     * are the ones Delta reads.
     */
    ghost predicate Trainable()
      reads this, model, Held(), Objects(model.a), Objects(model.z), if Sized() then {dz[L] as object, dz[L].data} else {}
      requires Sized()
    {
      var Ps := Learned();
      Shapely(Ps, model.n) && Activated(Views(model.a), model.n, model.m) &&
      Backward(Weights(Ps), Views(model.z), model.g, dz[L].View(), model.n, model.m)
    }

    /** A valid optimiser is ready to backpropagate. */
    lemma ValidTrainable()
      requires Valid()
      ensures Trainable()
    {
      var Ps := Learned();
      forall l | 1 <= l <= L
        ensures LayerFits(Ps[l], model.n[l], model.n[l - 1])
      {
        assert model.LayerLaid(l) && GradLaid(l);
      }
      var As, Zs := Views(model.a), Views(model.z);
      forall l | 0 <= l <= L
        ensures As[l].Valid() && As[l].Rows() == model.n[l] && As[l].Cols() == model.m
        ensures Fits(Zs[l], model.n[l], model.m)
      {
        assert model.LayerLaid(l);
      }
      assert GradLaid(L);
      ShapelyBackward(Ps, Zs, model.g, dz[L].View(), model.n, model.m);
    }

    /**
     * After forward propagation the caches hold the reference forward pass of the input in
     * a[0], taken with the learned weights and biases.
     */
    lemma CachesForward()
      requires Valid() && model.Propagated()
      ensures Feedable(Learned(), model.g, model.a[0].View(), model.n, model.m)
      ensures Views(model.a) == ForwardPass(Learned(), model.g, model.a[0].View(), model.n, model.m)
      ensures forall l :: 1 <= l <= L ==>
                Views(model.z)[l] == LayerAffine(Learned()[l], Views(model.a)[l - 1], model.n[l], model.n[l - 1], model.m)
    {
      var Ps, X := Learned(), model.a[0].View();
      ValidTrainable();
      assert model.LayerLaid(0);
      ActsForward(Ps, X);
      forall l | 1 <= l <= L
        ensures model.z[l].View() == LayerAffine(Ps[l], Views(model.a)[l - 1], model.n[l], model.n[l - 1], model.m)
      {
        assert model.LayerLaid(l) && model.LayerPropagated(l);
      }
    }

    /** After forward propagation into output, the caches and output are the forward pass of a[0]. */
    lemma ForwardedCaches()
      requires Valid() && model.Propagated() && output.View() == model.a[L].View()
      ensures Forwarded(Learned(), model.g, model.a[0].View(), model.n, model.m, Views(model.a), Views(model.z), output.View())
    {
      CachesForward();
    }

    /** The activation caches of a propagated model are the forward pass of the learned layers Ps. */
    lemma ActsForward(Ps: seq<Layer>, X: Mat)
      requires Valid() && model.Propagated() && Ps == Learned() && X == model.a[0].View()
      requires Feedable(Ps, model.g, X, model.n, model.m)
      ensures Views(model.a) == ForwardPass(Ps, model.g, X, model.n, model.m)
    {
      var Ws, Bs := Views(model.W), Views(model.b);
      var As := ForwardPass(Ps, model.g, X, model.n, model.m);
      forall k | 1 <= k <= L
        ensures Weights(Ps)[k] == Ws[k] && Biases(Ps)[k] == Bs[k]
      {
      }
      forall l | 0 <= l <= L
        ensures Views(model.a)[l] == As[l]
      {
        model.PropagatedIsForward(l);
        ForwardSameLayers(Ws, Bs, Weights(Ps), Biases(Ps), model.g, X, l);
      }
    }

    /** Every layer of a valid optimiser can take a backpropagation step. */
    lemma Ready(l: nat)
      requires Valid() && 1 <= l <= L
      ensures StepReady(l)
    {
      assert GradLaid(l) && GradLaid(l - 1) && model.LayerLaid(l) && model.LayerLaid(l - 1);
      assert model.z[l].data in model.buffers && model.a[l - 1].data in model.buffers;
      assert model.W[l].data in model.buffers && model.b[l].data in model.buffers;
    }

    /**
     * step's backward loop: computeBackPropagationStep(l, alpha) for l = L down to 1, starting
     * from the loss error in dz[L]. Every layer descends along the gradients of its Delta, taken
     * with the weights as they were before the loop; the caches stay as the forward pass left them.
     */
    method Backpropagate(alpha: real)
      requires Valid() && Trainable()
      modifies Scratch(), Moments(), model.Parameters(), model.Matrices()
      ensures Valid()
      ensures forall k :: 0 <= k <= L ==> model.a[k].View() == old(model.a[k].View()) && model.z[k].View() == old(model.z[k].View())
      ensures output.View() == old(output.View())
      ensures Learned() == Backpropagated(old(Learned()), old(Views(model.a)), old(Views(model.z)), old(dz[L].View()),
                                          model.g, model.n, model.m, B1, B2, t, alpha)
    {
      ghost var Ps, Zs, E := Learned(), Views(model.z), dz[L].View();
      ghost var Ds := Deltas(Weights(Ps), Zs, model.g, E, model.n, model.m);
      ghost var As, Qs := Views(model.a), Backpropagated(Ps, Views(model.a), Zs, E, model.g, model.n, model.m, B1, B2, t, alpha);
      BackpropagatedSchedule(Ps, As, Zs, E, model.g, model.n, model.m, B1, B2, t, alpha);
      SplicedEnds(Ps, Qs);
      BackwardLoop(alpha, Ps, As, Zs, Ds, Handed(Ps, Ds, model.n, model.m), Qs);
    }

    /**
     * The backward loop of step has come down to layer l of the schedule: the layers above l
     * hold their new values, the ones below their old ones, the caches are as the forward pass
     * left them, dz[L] holds the error when nothing has happened yet, and da[l] the gradient
     * that layer l + 1 handed down.
     */
    ghost predicate Progress(l: nat, Ps: seq<Layer>, As: seq<Mat>, Zs: seq<Mat>, Ds: seq<Mat>, Us: seq<Mat>, Qs: seq<Layer>)
      reads this, model, model.Matrices(), Matrices(), Held(), Objects(model.a), Objects(model.z), Objects(da), Objects(dz)
    {
      Valid() && l <= L && |Ps| == |Qs| == L + 1 && |As| == |Zs| == |Ds| == |Us| == L + 1 &&
      Learned() == Spliced(Ps, Qs, l) &&
      (forall k :: 0 <= k <= L ==> model.a[k].View() == As[k] && model.z[k].View() == Zs[k]) &&
      (l == L && L >= 1 ==> dz[l].View() == Ds[l]) &&
      (l < L ==> da[l].View() == Us[l])
    }

    /**
     * The loop of Backpropagate, following a schedule: for l = L down to 1, dz[l] comes to hold
     * Ds[l], da[l - 1] comes to hold Us[l - 1], and layer l becomes Qs[l]. (In the contract,
     * Schedule and Progress are compared with true so that the verifier carries each as one fact.)
     */
    method BackwardLoop(alpha: real, ghost Ps: seq<Layer>, ghost As: seq<Mat>, ghost Zs: seq<Mat>, ghost Ds: seq<Mat>,
                        ghost Us: seq<Mat>, ghost Qs: seq<Layer>)
      requires Schedule(Ps, As, Zs, Ds, Us, Qs, model.g, model.n, model.m, B1, B2, t, alpha) == true
      requires Progress(L, Ps, As, Zs, Ds, Us, Qs) == true
      modifies Scratch(), Moments(), model.Parameters(), model.Matrices()
      ensures Progress(0, Ps, As, Zs, Ds, Us, Qs) == true && output.View() == old(output.View())
    {
      var l := L;
      while l >= 1
        invariant Progress(l, Ps, As, Zs, Ds, Us, Qs) && output.View() == old(output.View())
        decreases l
      {
        var k := l - 1;
        BackwardStep(l, k, alpha, Ps, As, Zs, Ds, Us, Qs);
        l := k;
      }
      Finished(l, Ps, As, Zs, Ds, Us, Qs);
    }

    /** Progress at a layer l below 1 is progress at layer 0. */
    lemma Finished(l: nat, Ps: seq<Layer>, As: seq<Mat>, Zs: seq<Mat>, Ds: seq<Mat>, Us: seq<Mat>, Qs: seq<Layer>)
      requires l < 1 && Progress(l, Ps, As, Zs, Ds, Us, Qs) == true
      ensures Progress(0, Ps, As, Zs, Ds, Us, Qs) == true
    {
    }

    /**
     * Iteration l of the backward loop: it takes the schedule from layer l down to layer k, which
     * is l - 1 (passed by name so that every fact about the lower layer mentions the same term).
     */
    method BackwardStep(l: nat, k: nat, alpha: real, ghost Ps: seq<Layer>, ghost As: seq<Mat>, ghost Zs: seq<Mat>,
                        ghost Ds: seq<Mat>, ghost Us: seq<Mat>, ghost Qs: seq<Layer>)
      requires 1 <= l && k + 1 == l && Schedule(Ps, As, Zs, Ds, Us, Qs, model.g, model.n, model.m, B1, B2, t, alpha) == true
      requires Progress(l, Ps, As, Zs, Ds, Us, Qs)
      modifies Scratch(), Moments(), model.Parameters(), model.Matrices()
      ensures Progress(k, Ps, As, Zs, Ds, Us, Qs) && output.View() == old(output.View())
    {
      Ready(l);
      ScheduleAt(Ps, As, Zs, Ds, Us, Qs, model.g, model.n, model.m, B1, B2, t, alpha, l);
      ghost var Before := Learned();
      ComputeBackPropagationStep(l, alpha);
      Relearned(Before, l, Qs[l]);
      SplicedStep(Ps, Qs, l, k);
    }

    /** Learned() after the layers Before with layer l changed to Q. */
    lemma Relearned(Before: seq<Layer>, l: nat, Q: Layer)
      requires Sized() && 1 <= l <= L && |Before| == L + 1 && Before[0] == NoLayer
      requires forall k :: 1 <= k <= L && k != l ==> LayerParams(k) == Before[k]
      requires LayerParams(l) == Q
      ensures Learned() == Before[l := Q]
    {
    }

    /** The matrices computeBackPropagationStep(l, alpha) reads and writes have their shapes and roles. */
    ghost predicate StepReady(l: nat)
      reads this, model, model.Matrices(), Matrices()
      requires Sized() && 1 <= l <= L
    {
      GradLaid(l) && GradLaid(l - 1) && model.LayerLaid(l) && model.LayerLaid(l - 1) &&
      model.z[l].data !in roles && model.a[l - 1].data !in roles && model.W[l].data !in roles && model.b[l].data !in roles
    }

    /**
     * computeBackPropagationStep(l, alpha): dz[l] becomes the delta of layer l (at the last
     * layer it already holds the loss error), da[l-1] the error passed down through the weights
     * as they were, and the weights, bias and moments of layer l take one Adam step along the
     * gradients of that delta.
     */
    method ComputeBackPropagationStep(l: nat, alpha: real)
      requires Valid() && 1 <= l <= L
      modifies dz[l].data, model.a[l - 1], dW[l].data, db[l].data, model.W[l], da[l - 1].data
      modifies model.W[l].data, model.b[l].data, mW[l].data, vW[l].data, mb[l].data, vb[l].data
      ensures Valid() && output.View() == old(output.View())
      ensures forall M: Matrix :: old(allocated(M)) ==> M.transposed == old(M.transposed)
      ensures forall k :: 0 <= k <= L ==> model.a[k].View() == old(model.a[k].View()) && model.z[k].View() == old(model.z[k].View())
      ensures forall k :: 1 <= k <= L && k != l ==> LayerParams(k) == old(LayerParams(k))
      ensures old(StepReady(l)) ==>
                dz[l].View() == (if l == L then old(dz[l].View())
                                 else HiddenDelta(model.g[l].value, model.z[l].View(), old(da[l].View()))) &&
                da[l - 1].View() == InputGradient(old(model.W[l].View()), dz[l].View()) &&
                LayerParams(l) == Updated(old(LayerParams(l)),
                                          WeightGradient(dz[l].View(), model.a[l - 1].View(), FDiv(1.0, model.m as real)),
                                          BiasGradient(dz[l].View(), FDiv(1.0, model.m as real)), B1, B2, t, alpha)
    {
      Ready(l);
      BackwardAt(model, l, l == L, dz[l], da[l], dW[l], db[l], da[l - 1], mW[l], vW[l], mb[l], vb[l], roles, B1, B2, t, alpha);
      Kept();
      StepFramed(l);
      assert Holds(roles, output, Role(Out, 0));
    }

    /** A step of layer l, which restores every transposed flag, keeps the optimiser valid. */
    twostate lemma Kept()
      requires old(Valid())
      requires forall M: Matrix :: old(allocated(M)) ==> M.transposed == old(M.transposed)
      ensures Valid()
    {
      forall k | 0 <= k <= L
        ensures model.LayerLaid(k)
        ensures BuffersLaid(model.n, model.m, k, da[k], dz[k], dW[k], db[k], mW[k], vW[k], mb[k], vb[k], roles)
      {
        assert old(model.LayerLaid(k)) && old(GradLaid(k));
      }
    }

    /** A step of layer l leaves the caches and the other layers' parameters and moments as they were. */
    twostate lemma StepFramed(l: nat)
      requires old(Valid()) && 1 <= l <= L
      requires forall M: Matrix :: old(allocated(M)) ==> M.transposed == old(M.transposed)
      requires forall x :: x in model.buffers && model.buffers[x] != Weight(l) && model.buffers[x] != Bias(l) ==> x[..] == old(x[..])
      requires forall x :: x in roles && roles[x] != Role(DA, l - 1) && (roles[x].l == l ==> roles[x].kind == DA) ==> x[..] == old(x[..])
      ensures forall k :: 0 <= k <= L ==> model.a[k].View() == old(model.a[k].View()) && model.z[k].View() == old(model.z[k].View())
      ensures forall k :: 1 <= k <= L && k != l ==> LayerParams(k) == old(LayerParams(k))
    {
      forall k | 0 <= k <= L
        ensures model.a[k].View() == old(model.a[k].View()) && model.z[k].View() == old(model.z[k].View())
      {
        assert old(model.LayerLaid(k));
      }
      forall k | 1 <= k <= L && k != l
        ensures LayerParams(k) == old(LayerParams(k))
      {
        assert old(model.LayerLaid(k)) && old(GradLaid(k));
      }
    }

    /** BackwardLayer on layer l of the model, with the shapes and roles its buffers are laid out with. */
    static method BackwardAt(model: Model, l: nat, last: bool, dzl: Matrix, dal: Matrix, dWl: Matrix, dbl: Matrix, daPrev: Matrix,
                             mWl: Matrix, vWl: Matrix, mbl: Matrix, vbl: Matrix, ghost roles: map<array<real>, Role>,
                             B1: real, B2: real, t: int, alpha: real)
      requires model.Sized() && 1 <= l <= model.L && model.LayerLaid(l) && model.LayerLaid(l - 1)
      requires BuffersLaid(model.n, model.m, l, dal, dzl, dWl, dbl, mWl, vWl, mbl, vbl, roles)
      requires Holds(roles, daPrev, Role(DA, l - 1)) && Shaped(daPrev, model.n[l - 1], model.m)
      requires forall x :: x in roles ==> x !in model.buffers
      modifies dzl.data, model.a[l - 1], dWl.data, dbl.data, model.W[l], daPrev.data, model.W[l].data, model.b[l].data
      modifies mWl.data, vWl.data, mbl.data, vbl.data
      ensures forall M: Matrix :: old(allocated(M)) ==> M.transposed == old(M.transposed)
      ensures forall x :: x in model.buffers && model.buffers[x] != Weight(l) && model.buffers[x] != Bias(l) ==> x[..] == old(x[..])
      ensures forall x :: x in roles && roles[x] != Role(DA, l - 1) && (roles[x].l == l ==> roles[x].kind == DA) ==> x[..] == old(x[..])
      ensures dzl.View() == if last then old(dzl.View()) else HiddenDelta(model.g[l].value, model.z[l].View(), old(dal.View()))
      ensures daPrev.View() == InputGradient(old(model.W[l].View()), dzl.View())
      ensures Layer(model.W[l].View(), model.b[l].View(), mWl.View(), vWl.View(), mbl.View(), vbl.View()) ==
              Updated(old(Layer(model.W[l].View(), model.b[l].View(), mWl.View(), vWl.View(), mbl.View(), vbl.View())),
                      WeightGradient(dzl.View(), model.a[l - 1].View(), FDiv(1.0, model.m as real)),
                      BiasGradient(dzl.View(), FDiv(1.0, model.m as real)), B1, B2, t, alpha)
    {
      var zl, prev, Wl, bl := model.z[l], model.a[l - 1], model.W[l], model.b[l];
      assert zl.data in model.buffers && prev.data in model.buffers && Wl.data in model.buffers && bl.data in model.buffers;
      assert zl.data !in roles && prev.data !in roles && Wl.data !in roles && bl.data !in roles;
      BackwardLayer(l, last, model.g[l].value, zl, prev, Wl, bl, model.buffers,
                    dzl, dal, dWl, dbl, daPrev, mWl, vWl, mbl, vbl, roles, model.m, B1, B2, t, alpha);
    }

    /**
     * computeBackPropagationStep on the matrices of layer l: unless l is the last layer, dz[l]
     * becomes the hidden delta; then dW[l], db[l] and da[l-1] are computed from dz[l], and the
     * weights and the bias take one Adam step with their moments. Each buffer is named by its
     * role, which keeps them apart.
     */
    static method BackwardLayer(l: nat, last: bool, f: Activation,
                                zl: Matrix, prev: Matrix, Wl: Matrix, bl: Matrix, ghost buffers: map<array<real>, Slot>,
                                dzl: Matrix, dal: Matrix, dWl: Matrix, dbl: Matrix, daPrev: Matrix,
                                mWl: Matrix, vWl: Matrix, mbl: Matrix, vbl: Matrix, ghost roles: map<array<real>, Role>,
                                m: nat, B1: real, B2: real, t: int, alpha: real)
      requires l >= 1 && zl.data !in roles && prev.data !in roles && Wl.data !in roles && bl.data !in roles
      requires zl.data in buffers && buffers[zl.data] == PreAct(l)
      requires prev.data in buffers && buffers[prev.data] == Act(l - 1)
      requires Wl.data in buffers && buffers[Wl.data] == Weight(l)
      requires bl.data in buffers && buffers[bl.data] == Bias(l)
      requires Holds(roles, dzl, Role(DZ, l)) && Holds(roles, dal, Role(DA, l)) && Holds(roles, dWl, Role(DW, l))
      requires Holds(roles, dbl, Role(DB, l)) && Holds(roles, daPrev, Role(DA, l - 1))
      requires Holds(roles, mWl, Role(MW, l)) && Holds(roles, vWl, Role(VW, l))
      requires Holds(roles, mbl, Role(MB, l)) && Holds(roles, vbl, Role(VB, l))
      requires var r, c := zl.rows, prev.rows;
        Shaped(zl, r, m) && Shaped(dzl, r, m) && Shaped(dal, r, m) && Shaped(prev, c, m) && Shaped(daPrev, c, m) &&
        Shaped(Wl, r, c) && Shaped(dWl, r, c) && Shaped(mWl, r, c) && Shaped(vWl, r, c) &&
        Shaped(bl, r, 1) && Shaped(dbl, r, 1) && Shaped(mbl, r, 1) && Shaped(vbl, r, 1)
      modifies dzl.data, prev, dWl.data, dbl.data, Wl, daPrev.data, Wl.data, bl.data
      modifies mWl.data, vWl.data, mbl.data, vbl.data
      ensures prev.transposed == old(prev.transposed) && Wl.transposed == old(Wl.transposed)
      ensures dzl.View() == if last then old(dzl.View()) else HiddenDelta(f, zl.View(), old(dal.View()))
      ensures daPrev.View() == InputGradient(old(Wl.View()), dzl.View())
      ensures Layer(Wl.View(), bl.View(), mWl.View(), vWl.View(), mbl.View(), vbl.View()) ==
              Updated(old(Layer(Wl.View(), bl.View(), mWl.View(), vWl.View(), mbl.View(), vbl.View())),
                      WeightGradient(dzl.View(), prev.View(), FDiv(1.0, m as real)),
                      BiasGradient(dzl.View(), FDiv(1.0, m as real)), B1, B2, t, alpha)
    {
      ghost var P0 := Layer(Wl.View(), bl.View(), mWl.View(), vWl.View(), mbl.View(), vbl.View());
      LayerGradients(last, f, zl, prev, Wl, dzl, dal, dWl, dbl, daPrev, m);
      assert Layer(Wl.View(), bl.View(), mWl.View(), vWl.View(), mbl.View(), vbl.View()) == P0;
      ghost var D, P, A := dzl.View(), prev.View(), daPrev.View();
      LayerUpdate(Wl, bl, mWl, vWl, mbl, vbl, dWl, dbl, B1, B2, t, alpha);
      assert dzl.View() == D && prev.View() == P && daPrev.View() == A;
    }

    /** The update half of computeBackPropagationStep: one Adam step of W[l] and b[l] along dW[l] and db[l]. */
    static method LayerUpdate(Wl: Matrix, bl: Matrix, mWl: Matrix, vWl: Matrix, mbl: Matrix, vbl: Matrix,
                              dWl: Matrix, dbl: Matrix, B1: real, B2: real, t: int, alpha: real)
      requires Wl.data != mWl.data && Wl.data != vWl.data && Wl.data != dWl.data && mWl.data != vWl.data
      requires mWl.data != dWl.data && vWl.data != dWl.data
      requires bl.data != mbl.data && bl.data != vbl.data && bl.data != dbl.data && mbl.data != vbl.data
      requires mbl.data != dbl.data && vbl.data != dbl.data
      requires Wl.data != bl.data && Wl.data != mbl.data && Wl.data != vbl.data && Wl.data != dbl.data
      requires mWl.data != bl.data && mWl.data != mbl.data && mWl.data != vbl.data && mWl.data != dbl.data
      requires vWl.data != bl.data && vWl.data != mbl.data && vWl.data != vbl.data && vWl.data != dbl.data
      requires dWl.data != bl.data && dWl.data != mbl.data && dWl.data != vbl.data
      requires Wl.data.Length == mWl.data.Length == vWl.data.Length == dWl.data.Length
      requires bl.data.Length == mbl.data.Length == vbl.data.Length == dbl.data.Length
      modifies Wl.data, bl.data, mWl.data, vWl.data, mbl.data, vbl.data
      ensures Layer(Wl.View(), bl.View(), mWl.View(), vWl.View(), mbl.View(), vbl.View()) ==
              Updated(old(Layer(Wl.View(), bl.View(), mWl.View(), vWl.View(), mbl.View(), vbl.View())),
                      dWl.View(), dbl.View(), B1, B2, t, alpha)
    {
      UpdateParameters(Wl.data, mWl.data, vWl.data, dWl.data, B1, B2, t, alpha);
      ghost var W, MW, VW := Wl.View(), mWl.View(), vWl.View();
      UpdateParameters(bl.data, mbl.data, vbl.data, dbl.data, B1, B2, t, alpha);
      assert Wl.View() == W && mWl.View() == MW && vWl.View() == VW;
    }

    /** The gradient half of computeBackPropagationStep: dz[l] (below the last layer), dW[l], db[l] and da[l-1]. */
    static method LayerGradients(last: bool, f: Activation, zl: Matrix, prev: Matrix, Wl: Matrix,
                                 dzl: Matrix, dal: Matrix, dWl: Matrix, dbl: Matrix, daPrev: Matrix, m: nat)
      requires zl.data != prev.data && zl.data != Wl.data && zl.data != dzl.data && zl.data != dal.data && zl.data != dWl.data && zl.data != dbl.data && zl.data != daPrev.data
      requires prev.data != Wl.data && prev.data != dzl.data && prev.data != dal.data && prev.data != dWl.data && prev.data != dbl.data && prev.data != daPrev.data
      requires Wl.data != dzl.data && Wl.data != dal.data && Wl.data != dWl.data && Wl.data != dbl.data && Wl.data != daPrev.data
      requires dzl.data != dal.data && dzl.data != dWl.data && dzl.data != dbl.data && dzl.data != daPrev.data
      requires dal.data != dWl.data && dal.data != dbl.data && dal.data != daPrev.data
      requires dWl.data != dbl.data && dWl.data != daPrev.data
      requires dbl.data != daPrev.data
      requires var r, c := zl.rows, prev.rows;
        Shaped(zl, r, m) && Shaped(dzl, r, m) && Shaped(dal, r, m) && Shaped(prev, c, m) && Shaped(daPrev, c, m) &&
        Shaped(Wl, r, c) && Shaped(dWl, r, c) && Shaped(dbl, r, 1)
      modifies dzl.data, prev, dWl.data, dbl.data, Wl, daPrev.data
      ensures prev.transposed == old(prev.transposed) && Wl.transposed == old(Wl.transposed)
      ensures dzl.View() == if last then old(dzl.View()) else HiddenDelta(f, zl.View(), old(dal.View()))
      ensures dWl.View() == WeightGradient(dzl.View(), prev.View(), FDiv(1.0, m as real))
      ensures dbl.View() == BiasGradient(dzl.View(), FDiv(1.0, m as real))
      ensures daPrev.View() == InputGradient(Wl.View(), dzl.View())
    {
      ghost var P, W := prev.View(), Wl.View();
      if !last {
        LayerDelta(f, zl, dzl, dal);
      }
      ghost var D := dzl.View();
      LayerWeightGradient(dzl, prev, dWl, m);
      assert dzl.View() == D && prev.View() == P && Wl.View() == W;
      ghost var GW := dWl.View();
      LayerBiasGradient(dzl, dbl, m);
      assert dzl.View() == D && dWl.View() == GW && Wl.View() == W;
      ghost var GB := dbl.View();
      LayerInputGradient(Wl, dzl, daPrev);
      assert dzl.View() == D && dWl.View() == GW && dbl.View() == GB && prev.View() == P;
    }

    /** g[l].deriv(Z[l], dz[l]), then hadamardProduct(dz[l], da[l]). */
    static method LayerDelta(f: Activation, zl: Matrix, dzl: Matrix, dal: Matrix)
      requires Shaped(zl, dzl.rows, dzl.cols) && Shaped(dzl, dzl.rows, dzl.cols) && Shaped(dal, dzl.rows, dzl.cols)
      requires dzl.data != zl.data && dzl.data != dal.data
      modifies dzl.data
      ensures dzl.View() == HiddenDelta(f, zl.View(), dal.View())
    {
      var r := f.Deriv(zl.data, dzl.data);
      ghost var derivs := dzl.View();
      r := Matrix.HadamardProduct(dzl, dal);
      var D := HiddenDelta(f, zl.View(), dal.View());
      forall i, j | 0 <= i < dzl.Rows() && 0 <= j < dzl.Cols()
        ensures dzl.View().Get(i, j) == D.Get(i, j)
      {
        assert derivs.Get(i, j) == f.DerivImpl(zl.View().Get(i, j));
      }
      ViewsEqual(dzl.View(), D);
    }

    /** a[l-1].transpose(); multiply(dz[l], a[l-1], dW[l]); a[l-1].transpose(); dW[l].multiply(1 / m). */
    static method LayerWeightGradient(dzl: Matrix, prev: Matrix, dWl: Matrix, m: nat)
      requires dzl.Valid() && prev.Valid() && dzl.Cols() == prev.Cols()
      requires Shaped(dWl, dzl.Rows(), prev.Rows())
      requires dWl.data != dzl.data && dWl.data != prev.data && dzl.data != prev.data
      modifies prev, dWl.data
      ensures prev.transposed == old(prev.transposed)
      ensures dWl.View() == WeightGradient(dzl.View(), prev.View(), FDiv(1.0, m as real))
    {
      ghost var D, P := dzl.View(), prev.View();
      assert dWl != prev && dWl != dzl;
      prev.Transpose();
      assert prev.View() == P.Transposed();
      var r := Matrix.Dot(dzl, prev, dWl);
      assert dzl.View() == D && prev.View() == P.Transposed();
      ProductEquals(dWl.View(), D, P.Transposed());
      ghost var G := Product(D, P.Transposed());
      assert dWl.data[..] == G.data;
      prev.Transpose();
      dWl.Multiply(FDiv(1.0, m as real));
      ghost var S := Scaled(G, FDiv(1.0, m as real));
      forall p | 0 <= p < dWl.data.Length
        ensures dWl.data[p] == S.data[p]
      {
      }
      assert dWl.data[..] == S.data;
    }

    /** dz[l].sumOfCols(db[l]); db[l].multiply(1 / m). */
    static method LayerBiasGradient(dzl: Matrix, dbl: Matrix, m: nat)
      requires dzl.Valid() && Shaped(dbl, dzl.Rows(), 1) && dbl.data != dzl.data
      modifies dbl.data
      ensures dbl.View() == BiasGradient(dzl.View(), FDiv(1.0, m as real))
    {
      ghost var D := dzl.View();
      var r := dzl.SumOfCols(dbl);
      ghost var G := RowSums(D);
      ViewsEqual(dbl.View(), G);
      dbl.Multiply(FDiv(1.0, m as real));
      ghost var S := Scaled(G, FDiv(1.0, m as real));
      forall p | 0 <= p < dbl.data.Length
        ensures dbl.data[p] == S.data[p]
      {
      }
      assert dbl.data[..] == S.data;
    }

    /** W[l].transpose(); multiply(W[l], dz[l], da[l-1]); W[l].transpose(). */
    static method LayerInputGradient(Wl: Matrix, dzl: Matrix, daPrev: Matrix)
      requires Wl.Valid() && dzl.Valid() && Wl.Rows() == dzl.Rows()
      requires Shaped(daPrev, Wl.Cols(), dzl.Cols())
      requires daPrev.data != Wl.data && daPrev.data != dzl.data && Wl.data != dzl.data
      modifies Wl, daPrev.data
      ensures Wl.transposed == old(Wl.transposed)
      ensures daPrev.View() == InputGradient(Wl.View(), dzl.View())
    {
      ghost var V, D := Wl.View(), dzl.View();
      assert daPrev != Wl && daPrev != dzl;
      Wl.Transpose();
      assert Wl.View() == V.Transposed();
      var r := Matrix.Dot(Wl, dzl, daPrev);
      assert dzl.View() == D && Wl.View() == V.Transposed();
      ProductEquals(daPrev.View(), V.Transposed(), D);
      ghost var G := daPrev.View();
      Wl.Transpose();
      assert daPrev.View() == G && Wl.View() == V && dzl.View() == D;
    }

    /** One of the two update loops: moments, then parameters, cell by cell. */
    static method UpdateParameters(param: array<real>, m1: array<real>, m2: array<real>, grad: array<real>,
                                   B1: real, B2: real, t: int, alpha: real)
      requires param.Length == m1.Length == m2.Length == grad.Length
      requires param != m1 && param != m2 && m1 != m2
      requires grad != param && grad != m1 && grad != m2
      modifies param, m1, m2
      ensures m1[..] == FirstMoments(B1, old(m1[..]), grad[..])
      ensures m2[..] == SecondMoments(B2, old(m2[..]), grad[..])
      ensures param[..] == Descents(old(param[..]), m1[..], m2[..], B1, B2, t, alpha)
    {
      var i := 0;
      while i < m1.Length
        invariant 0 <= i <= m1.Length
        invariant forall k :: 0 <= k < i ==>
                    m1[k] == FirstMoment(B1, old(m1[k]), grad[k]) && m2[k] == SecondMoment(B2, old(m2[k]), grad[k]) &&
                    param[k] == Descended(old(param[k]), m1[k], m2[k], B1, B2, t, alpha)
        invariant forall k :: i <= k < m1.Length ==> m1[k] == old(m1[k]) && m2[k] == old(m2[k]) && param[k] == old(param[k])
      {
        var m := m1[i];
        var v := m2[i];
        var g := grad[i];
        m := FirstMoment(B1, m, g);
        v := SecondMoment(B2, v, g);
        var mHat := FDiv(m, 1.0 - Pow(B1, t as real));
        var vHat := FDiv(v, 1.0 - Pow(B2, t as real));
        assert mHat == Corrected(m, B1, t) && vHat == Corrected(v, B2, t);
        var w := param[i];
        param[i] := w - FDiv(Mul(alpha, mHat), Sqrt(vHat + EPSILON));
        assert param[i] == Descended(w, m, v, B1, B2, t, alpha);
        m1[i] := m;
        m2[i] := v;
        i := i + 1;
      }
    }
  }
}
