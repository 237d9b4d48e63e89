/**
 * Model.java: a fully connected network of fixed batch width m. Layer l (1 <= l <= L) holds
 * weights W[l] (n[l] x n[l-1]), a bias column b[l] (n[l] x 1), and the caches z[l] and a[l]
 * (n[l] x m) that forward propagation fills: z[l] = W[l] · a[l-1] + b[l] and a[l] = g[l](z[l]).
 */
module Models {
  import opened Errors
  import opened Dense
  import opened Matrices
  import opened Activations

  /** The role of a data buffer inside a model: which matrix of which layer it backs. */
  datatype Slot = Act(l: nat) | PreAct(l: nat) | Weight(l: nat) | Bias(l: nat)

  /**
   * Initializer.get(fanIn, fanOut), asked for cell p of layer l's weights. The value a random
   * initializer returns depends on how many values it has drawn, so the draw is named by its
   * position.
   */
  type Initializer = (nat, nat, nat, nat) -> real

  /** The row-major grid whose cell (i, j) is W(i, ·) · P(·, j) + B(i, 0): dot, then addBroadcasted. */
  function Affine(Wm: Mat, P: Mat, B: Mat): (Z: Mat)
    requires Wm.Valid() && P.Valid() && B.Valid()
    requires Wm.Cols() == P.Rows() && B.Rows() == Wm.Rows() && B.Cols() == 1
    ensures Z.Valid() && !Z.transposed && Z.rows == Wm.Rows() && Z.cols == P.Cols()
  {
    var r, c := Wm.Rows(), P.Cols();
    var grid := Mat(r, c, false, []);
    Mat(r, c, false, seq(r * c, p requires 0 <= p < r * c =>
      var rc := grid.Coords(p);
      ProductSum(Wm, P, rc.0, rc.1, Wm.Cols()) + B.Get(rc.0, 0)))
  }

  /** The activation applied to every cell of the buffer, as ActivationFunction.get does. */
  function Activate(f: Activation, Z: Mat): (A: Mat)
    ensures A.rows == Z.rows && A.cols == Z.cols && A.transposed == Z.transposed && |A.data| == |Z.data|
    ensures forall p :: 0 <= p < |Z.data| ==> A.data[p] == f.GetImpl(Z.data[p])
  {
    Z.(data := seq(|Z.data|, p requires 0 <= p < |Z.data| => f.GetImpl(Z.data[p])))
  }

  /** Cell (i, j) of Affine is the dot product of row i of W with column j of P, plus bias i. */
  lemma AffineGet(Wm: Mat, P: Mat, B: Mat, i: nat, j: nat)
    requires Wm.Valid() && P.Valid() && B.Valid()
    requires Wm.Cols() == P.Rows() && B.Rows() == Wm.Rows() && B.Cols() == 1
    requires i < Wm.Rows() && j < P.Cols()
    ensures Affine(Wm, P, B).Get(i, j) == ProductSum(Wm, P, i, j, Wm.Cols()) + B.Get(i, 0)
  {
    var grid := Mat(Wm.Rows(), P.Cols(), false, []);
    CoordsOfOffset(grid, i, j);
  }

  /** Cell (i, j) of Activate is the activation of cell (i, j). */
  lemma ActivateGet(f: Activation, Z: Mat, i: nat, j: nat)
    requires Z.Valid() && i < Z.Rows() && j < Z.Cols()
    ensures Activate(f, Z).Valid() && Activate(f, Z).Get(i, j) == f.GetImpl(Z.Get(i, j))
  {
  }

  /** A non-transposed matrix with the affine cells is the affine grid. */
  lemma AffineEquals(Z: Mat, Wm: Mat, P: Mat, B: Mat)
    requires Z.Valid() && Wm.Valid() && P.Valid() && B.Valid()
    requires Wm.Cols() == P.Rows() && B.Rows() == Wm.Rows() && B.Cols() == 1
    requires !Z.transposed && Z.rows == Wm.Rows() && Z.cols == P.Cols()
    requires forall i, j :: 0 <= i < Z.Rows() && 0 <= j < Z.Cols() ==>
               Z.Get(i, j) == ProductSum(Wm, P, i, j, Wm.Cols()) + B.Get(i, 0)
    ensures Z == Affine(Wm, P, B)
  {
    var A := Affine(Wm, P, B);
    forall i, j | 0 <= i < Z.Rows() && 0 <= j < Z.Cols()
      ensures Z.Get(i, j) == A.Get(i, j)
    {
      AffineGet(Wm, P, B, i, j);
    }
    ViewsEqual(Z, A);
  }

  /**
   * Layer shapes that chain: the weights of layer l take the output of layer l - 1 (the input X
   * for l = 1), every bias is a column of the layer's height, every layer has an activation.
   */
  predicate Chain(Ws: seq<Mat>, Bs: seq<Mat>, fs: seq<Option<Activation>>, X: Mat)
  {
    |Ws| == |Bs| == |fs| > 0 && X.Valid() &&
    (forall l {:trigger Ws[l]} :: 1 <= l < |Ws| ==>
      Ws[l].Valid() && Bs[l].Valid() && fs[l].Some? && Bs[l].Rows() == Ws[l].Rows() && Bs[l].Cols() == 1 &&
      (l == 1 ==> Ws[l].Cols() == X.Rows())) &&
    forall k, l {:trigger Ws[k], Ws[l]} :: 1 <= k < |Ws| && 1 <= l < |Ws| && k + 1 == l ==> Ws[l].Cols() == Ws[k].Rows()
  }

  /** The activations of layer l for the input X: the reference definition of forward propagation. */
  function Forward(Ws: seq<Mat>, Bs: seq<Mat>, fs: seq<Option<Activation>>, X: Mat, l: nat): (A: Mat)
    requires Chain(Ws, Bs, fs, X) && l < |Ws|
    ensures A.Valid() && A.Rows() == (if l == 0 then X.Rows() else Ws[l].Rows()) && A.Cols() == X.Cols()
    decreases l
  {
    if l == 0 then X
    else
      var Wl := Ws[l];
      Activate(fs[l].value, Affine(Wl, Forward(Ws, Bs, fs, X, l - 1), Bs[l]))
  }

  /** A column of W · P depends only on the same column of P. */
  lemma {:induction false} ProductSumColumns(Wm: Mat, P: Mat, Q: Mat, i: nat, j: nat, j': nat, k: nat)
    requires Wm.Valid() && P.Valid() && Q.Valid() && P.Rows() == Q.Rows()
    requires i < Wm.Rows() && j < P.Cols() && j' < Q.Cols() && k <= Wm.Cols() && k <= P.Rows()
    requires forall t :: 0 <= t < P.Rows() ==> P.Get(t, j) == Q.Get(t, j')
    ensures ProductSum(Wm, P, i, j, k) == ProductSum(Wm, Q, i, j', k)
  {
    if k > 0 {
      ProductSumColumns(Wm, P, Q, i, j, j', k - 1);
    }
  }

  /**
   * Forward propagation treats the examples of a batch independently: an example placed in
   * column j of one batch and in column j' of another yields the same activations in every layer,
   * whatever the other examples are and however wide the batches are.
   */
  lemma {:induction false} ForwardColumns(Ws: seq<Mat>, Bs: seq<Mat>, fs: seq<Option<Activation>>,
                                          X: Mat, Y: Mat, j: nat, j': nat, l: nat)
    requires Chain(Ws, Bs, fs, X) && Y.Valid() && Y.Rows() == X.Rows() && l < |Ws|
    requires j < X.Cols() && j' < Y.Cols()
    requires forall i :: 0 <= i < X.Rows() ==> X.Get(i, j) == Y.Get(i, j')
    ensures Chain(Ws, Bs, fs, Y)
    ensures forall i :: 0 <= i < Forward(Ws, Bs, fs, X, l).Rows() ==>
              Forward(Ws, Bs, fs, X, l).Get(i, j) == Forward(Ws, Bs, fs, Y, l).Get(i, j')
  {
    if l > 0 {
      ForwardColumns(Ws, Bs, fs, X, Y, j, j', l - 1);
      var P, Q := Forward(Ws, Bs, fs, X, l - 1), Forward(Ws, Bs, fs, Y, l - 1);
      var Wl, Bl, f := Ws[l], Bs[l], fs[l].value;
      forall i | 0 <= i < Wl.Rows()
        ensures Forward(Ws, Bs, fs, X, l).Get(i, j) == Forward(Ws, Bs, fs, Y, l).Get(i, j')
      {
        LayerColumns(Wl, Bl, f, P, Q, i, j, j');
      }
    }
  }

  /** A cell of one layer depends only on the same column of the layer before it. */
  lemma LayerColumns(Wl: Mat, Bl: Mat, f: Activation, P: Mat, Q: Mat, i: nat, j: nat, j': nat)
    requires Wl.Valid() && Bl.Valid() && P.Valid() && Q.Valid()
    requires Wl.Cols() == P.Rows() == Q.Rows() && Bl.Rows() == Wl.Rows() && Bl.Cols() == 1
    requires i < Wl.Rows() && j < P.Cols() && j' < Q.Cols()
    requires forall t :: 0 <= t < P.Rows() ==> P.Get(t, j) == Q.Get(t, j')
    ensures Activate(f, Affine(Wl, P, Bl)).Get(i, j) == Activate(f, Affine(Wl, Q, Bl)).Get(i, j')
  {
    ProductSumColumns(Wl, P, Q, i, j, j', Wl.Cols());
    AffineGet(Wl, P, Bl, i, j);
    AffineGet(Wl, Q, Bl, i, j');
    ActivateGet(f, Affine(Wl, P, Bl), i, j);
    ActivateGet(f, Affine(Wl, Q, Bl), i, j');
  }

  /** The data buffer of every matrix of layers 0 .. |a| - 1 is keyed by its own slot. */
  ghost predicate Slotted(a: seq<Matrix>, z: seq<Matrix>, W: seq<Matrix?>, b: seq<Matrix>, buffers: map<array<real>, Slot>)
  {
    |a| == |z| == |W| == |b| &&
    (forall l :: 0 <= l < |a| ==> a[l].data in buffers && buffers[a[l].data] == Act(l)) &&
    (forall l :: 0 <= l < |z| ==> z[l].data in buffers && buffers[z[l].data] == PreAct(l)) &&
    (forall l :: 0 <= l < |b| ==> b[l].data in buffers && buffers[b[l].data] == Bias(l)) &&
    (forall l :: 1 <= l < |W| ==> W[l] != null && W[l].data in buffers && buffers[W[l].data] == Weight(l))
  }

  /** Layers 0 .. |a| - 1 have the shapes the sizes n and the batch width m give them, untransposed. */
  ghost predicate Laid(a: seq<Matrix>, z: seq<Matrix>, W: seq<Matrix?>, b: seq<Matrix>, n: seq<nat>, m: nat)
    reads set M | M in a, set M | M in z, set M: Matrix | M in W, set M | M in b
  {
    |a| == |z| == |W| == |b| <= |n| &&
    (forall l :: 0 <= l < |a| ==> Shaped(a[l], n[l], m)) &&
    (forall l :: 0 <= l < |z| ==> Shaped(z[l], n[l], m)) &&
    (forall l :: 0 <= l < |b| ==> Shaped(b[l], n[l], 1)) &&
    (forall l {:trigger W[l]} :: 1 <= l < |W| ==> W[l] != null && Shaped(W[l], n[l], n[l - 1]))
  }

  /** The caches and biases of layers 0 .. |a| - 1 are zero, as Java allocates them. */
  ghost predicate Zeroed(a: seq<Matrix>, z: seq<Matrix>, b: seq<Matrix>, n: seq<nat>, m: nat)
    reads set M | M in a :: M.data, set M | M in z :: M.data, set M | M in b :: M.data
  {
    |a| == |z| == |b| <= |n| &&
    (forall l :: 0 <= l < |a| ==> a[l].data[..] == Zeros(n[l] * m)) &&
    (forall l :: 0 <= l < |z| ==> z[l].data[..] == Zeros(n[l] * m)) &&
    (forall l :: 0 <= l < |b| ==> b[l].data[..] == Zeros(n[l]))
  }

  /** The matrices of the layers. */
  ghost function Owned(a: seq<Matrix>, z: seq<Matrix>, W: seq<Matrix?>, b: seq<Matrix>): (S: set<Matrix>)
    ensures forall l :: 0 <= l < |a| ==> a[l] in S
    ensures forall l :: 0 <= l < |z| ==> z[l] in S
    ensures forall l :: 0 <= l < |b| ==> b[l] in S
    ensures forall l :: 0 <= l < |W| && W[l] != null ==> W[l] in S
  {
    (set l | 0 <= l < |a| :: a[l]) + (set l | 0 <= l < |z| :: z[l]) + (set l | 0 <= l < |b| :: b[l]) +
    (set l | 0 <= l < |W| && W[l] != null :: W[l] as Matrix)
  }

  /** Every weight of layers 1 .. |W| - 1 is draw (l, p) of the initializer, asked with the given fans. */
  ghost predicate Drawn(W: seq<Matrix?>, init: Initializer, fanIn: nat, fanOut: nat)
    reads set l | 1 <= l < |W| && W[l] != null :: W[l].data
  {
    forall l, p :: 1 <= l < |W| && W[l] != null && 0 <= p < W[l].data.Length ==>
      W[l].data[p] == init(fanIn, fanOut, l, p)
  }

  /** Appending weights filled with the draws of their own layer keeps every weight drawn. */
  lemma DrawnGrow(W: seq<Matrix?>, init: Initializer, fanIn: nat, fanOut: nat, Wl: Matrix)
    requires Drawn(W, init, fanIn, fanOut)
    requires forall p :: 0 <= p < Wl.data.Length ==> Wl.data[p] == init(fanIn, fanOut, |W|, p)
    ensures Drawn(W + [Wl], init, fanIn, fanOut)
  {
  }

  /** System.arraycopy of the activations into positions 1 .. L, leaving position 0 null. */
  function Shifted(activations: seq<Activation>): (g: seq<Option<Activation>>)
    ensures |g| == |activations| + 1 && g[0] == None
    ensures forall l {:trigger g[l]} :: 1 <= l < |g| ==> g[l] == Some(activations[l - 1])
  {
    [None] + seq(|activations|, k requires 0 <= k < |activations| => Some(activations[k]))
  }

  /** buffers with the four buffers of layer l added. */
  ghost function WithLayer(buffers: map<array<real>, Slot>, l: nat, al: Matrix, zl: Matrix, Wl: Matrix, bl: Matrix)
    : map<array<real>, Slot>
  {
    buffers[al.data := Act(l)][zl.data := PreAct(l)][Wl.data := Weight(l)][bl.data := Bias(l)]
  }

  /** A layer adds the buffers of its four matrices and no others. */
  lemma WithLayerAdds(buffers: map<array<real>, Slot>, l: nat, al: Matrix, zl: Matrix, Wl: Matrix, bl: Matrix)
    ensures forall x :: x in WithLayer(buffers, l, al, zl, Wl, bl) && x !in buffers ==> x in {al.data, zl.data, Wl.data, bl.data}
  {
  }

  /** Appending a layer of fresh buffers keeps every buffer keyed by its own slot. */
  lemma SlottedGrow(a: seq<Matrix>, z: seq<Matrix>, W: seq<Matrix?>, b: seq<Matrix>, buffers: map<array<real>, Slot>,
                    al: Matrix, zl: Matrix, Wl: Matrix, bl: Matrix)
    requires Slotted(a, z, W, b, buffers)
    requires al.data !in buffers && zl.data !in buffers && Wl.data !in buffers && bl.data !in buffers
    requires al.data != zl.data && al.data != Wl.data && al.data != bl.data
    requires zl.data != Wl.data && zl.data != bl.data && Wl.data != bl.data
    ensures Slotted(a + [al], z + [zl], W + [Wl], b + [bl],
                    WithLayer(buffers, |a|, al, zl, Wl, bl))
  {
  }

  /** Every matrix the layers own is backed by one of the slotted buffers. */
  lemma OwnedSlotted(a: seq<Matrix>, z: seq<Matrix>, W: seq<Matrix?>, b: seq<Matrix>, buffers: map<array<real>, Slot>)
    requires Slotted(a, z, W, b, buffers) && (|W| > 0 ==> W[0] == null)
    ensures forall M :: M in Owned(a, z, W, b) ==> M.data in buffers
  {
  }

  /** Appending a layer of the next shapes keeps the layers laid out. */
  lemma LaidGrow(a: seq<Matrix>, z: seq<Matrix>, W: seq<Matrix?>, b: seq<Matrix>, n: seq<nat>, m: nat,
                 al: Matrix, zl: Matrix, Wl: Matrix, bl: Matrix)
    requires Laid(a, z, W, b, n, m) && 0 < |a| < |n|
    requires Shaped(al, n[|a|], m) && Shaped(zl, n[|a|], m) && Shaped(Wl, n[|a|], n[|a| - 1]) && Shaped(bl, n[|a|], 1)
    ensures Laid(a + [al], z + [zl], W + [Wl], b + [bl], n, m)
  {
  }

  /** Appending zero caches and a zero bias keeps the layers zeroed. */
  lemma ZeroedGrow(a: seq<Matrix>, z: seq<Matrix>, b: seq<Matrix>, n: seq<nat>, m: nat, al: Matrix, zl: Matrix, bl: Matrix)
    requires Zeroed(a, z, b, n, m) && |a| < |n|
    requires al.data[..] == Zeros(n[|a|] * m) && zl.data[..] == Zeros(n[|a|] * m) && bl.data[..] == Zeros(n[|a|])
    ensures Zeroed(a + [al], z + [zl], b + [bl], n, m)
  {
  }

  /** Appending zero caches keeps the caches cleared. */
  lemma ClearedGrow(a: seq<Matrix>, z: seq<Matrix>, n: seq<nat>, m: nat, al: Matrix, zl: Matrix)
    requires Cleared(a, z, n, m) && |a| < |n|
    requires al.data[..] == Zeros(n[|a|] * m) && zl.data[..] == Zeros(n[|a|] * m)
    ensures Cleared(a + [al], z + [zl], n, m)
  {
  }

  /** Appending copies of the next layer's weights and bias keeps the layers copied. */
  lemma CopiedGrow(W: seq<Matrix?>, b: seq<Matrix>, W0: seq<Matrix?>, b0: seq<Matrix>, Wl: Matrix, bl: Matrix)
    requires Copied(W, b, W0, b0) && 0 < |W| < |W0| && W0[|W|] != null
    requires Wl.data.Length == W0[|W|].data.Length && forall p :: 0 <= p < Wl.data.Length ==> Wl.data[p] == W0[|W|].data[p]
    requires bl.data.Length == b0[|W|].data.Length && forall p :: 0 <= p < bl.data.Length ==> bl.data[p] == b0[|W|].data[p]
    ensures Copied(W + [Wl], b + [bl], W0, b0)
  {
  }

  /** The caches of layers 0 .. |a| - 1 are zero, as Java allocates them. */
  ghost predicate Cleared(a: seq<Matrix>, z: seq<Matrix>, n: seq<nat>, m: nat)
    reads set M | M in a :: M.data, set M | M in z :: M.data
  {
    |a| == |z| <= |n| &&
    (forall l :: 0 <= l < |a| ==> a[l].data[..] == Zeros(n[l] * m)) &&
    (forall l :: 0 <= l < |z| ==> z[l].data[..] == Zeros(n[l] * m))
  }

  /** The weights and biases of layers 1 .. |W| - 1 hold the cells of those of layers 1 .. |W| - 1 of W0 and b0. */
  ghost predicate Copied(W: seq<Matrix?>, b: seq<Matrix>, W0: seq<Matrix?>, b0: seq<Matrix>)
    reads set l | 1 <= l < |W| && W[l] != null :: W[l].data
    reads set l | 1 <= l < |W0| && W0[l] != null :: W0[l].data
    reads set M | M in b :: M.data, set M | M in b0 :: M.data
  {
    |W| == |b| <= |W0| == |b0| &&
    (forall l :: 1 <= l < |W| ==> W[l] != null && W0[l] != null && W[l].data.Length == W0[l].data.Length) &&
    (forall l :: 1 <= l < |b| ==> b[l].data.Length == b0[l].data.Length) &&
    (forall l, p :: 1 <= l < |W| && W[l] != null && W0[l] != null && 0 <= p < W[l].data.Length ==> W[l].data[p] == W0[l].data[p]) &&
    (forall l, p :: 1 <= l < |b| && 0 <= p < b[l].data.Length ==> b[l].data[p] == b0[l].data[p])
  }

  /** Forward propagation reads layers 1 .. L only: networks that agree on them agree everywhere. */
  lemma {:induction false} ForwardSameLayers(Ws: seq<Mat>, Bs: seq<Mat>, Ws': seq<Mat>, Bs': seq<Mat>,
                                             fs: seq<Option<Activation>>, X: Mat, l: nat)
    requires Chain(Ws, Bs, fs, X) && |Ws'| == |Ws| && |Bs'| == |Bs| && l < |Ws|
    requires forall k :: 1 <= k < |Ws| ==> Ws'[k] == Ws[k] && Bs'[k] == Bs[k]
    ensures Chain(Ws', Bs', fs, X)
    ensures Forward(Ws', Bs', fs, X, l) == Forward(Ws, Bs, fs, X, l)
  {
    forall k | 1 <= k < |Ws'|
      ensures Ws'[k].Valid() && Bs'[k].Valid() && fs[k].Some? && Bs'[k].Rows() == Ws'[k].Rows() && Bs'[k].Cols() == 1
      ensures k == 1 ==> Ws'[k].Cols() == X.Rows()
    {
      assert Ws'[k] == Ws[k] && Bs'[k] == Bs[k];
    }
    if l > 0 {
      ForwardSameLayers(Ws, Bs, Ws', Bs', fs, X, l - 1);
    }
  }

  /** The values of the matrices in the current heap; a null entry reads as the empty grid. */
  ghost function Views(Ms: seq<Matrix?>): (Vs: seq<Mat>)
    reads set l | 0 <= l < |Ms| && Ms[l] != null :: Ms[l] as object
    reads set l | 0 <= l < |Ms| && Ms[l] != null :: Ms[l].data
    ensures |Vs| == |Ms|
    ensures forall l :: 0 <= l < |Ms| && Ms[l] != null ==> Vs[l] == Ms[l].View()
    ensures forall l :: 0 <= l < |Ms| && Ms[l] == null ==> Vs[l] == Mat(0, 0, false, [])
  {
    if Ms == [] then []
    else
      var last := Ms[|Ms| - 1];
      Views(Ms[..|Ms| - 1]) + [if last == null then Mat(0, 0, false, []) else last.View()]
  }

  class Model {
    const inputSize: nat
    const outputSize: nat
    /** The batch width: every cache has m columns. */
    const m: nat
    /** The number of weight layers. */
    const L: nat
    /** Layer sizes n[0] (the input) to n[L] (the output). */
    const n: seq<nat>
    /** The activation of each layer; g[0] is null. */
    const g: seq<Option<Activation>>
    /** Weights; W[0] is null. */
    const W: seq<Matrix?>
    const a: seq<Matrix>
    const z: seq<Matrix>
    const b: seq<Matrix>
    /** The role of each data buffer the model owns: no two matrices share a buffer. */
    ghost const buffers: map<array<real>, Slot>

    /** The arrays have L + 1 entries and the layers are wired as the constructors build them. */
    ghost predicate Sized()
      reads this
    {
      |n| == |g| == |W| == |a| == |z| == |b| == L + 1 &&
      inputSize == n[0] && outputSize == n[L] && W[0] == null && g[0] == None &&
      (forall l :: 1 <= l <= L ==> W[l] != null && g[l].Some?)
    }

    /** Every matrix the model owns. */
    ghost function Matrices(): set<Matrix>
      reads this
    {
      Owned(a, z, W, b)
    }

    /** The matrices of layer l (its weights when l > 0). */
    ghost function LayerMatrices(l: nat): set<Matrix>
      reads this
      requires Sized() && l <= L
    {
      {a[l], z[l], b[l]} + (if l > 0 then {W[l] as Matrix} else {})
    }

    /**
     * Layer l's matrices have the shapes n and m give them, untransposed, and each buffer is
     * keyed by its own slot. Valid() states it for every layer; a proof about layer l asks for
     * LayerLaid(l) by name, which keeps the facts about the other layers out of sight.
     */
    ghost predicate LayerLaid(l: nat)
      reads this, if Sized() && l <= L then LayerMatrices(l) else {}
      requires Sized() && l <= L
    {
      Shaped(a[l], n[l], m) && Shaped(z[l], n[l], m) && Shaped(b[l], n[l], 1) &&
      a[l].data in buffers && buffers[a[l].data] == Act(l) &&
      z[l].data in buffers && buffers[z[l].data] == PreAct(l) &&
      b[l].data in buffers && buffers[b[l].data] == Bias(l) &&
      (l > 0 ==> var Wl := W[l]; Shaped(Wl, n[l], n[l - 1]) && Wl.data in buffers && buffers[Wl.data] == Weight(l))
    }

    ghost predicate Valid()
      reads this, Matrices()
    {
      Sized() && forall l {:trigger LayerLaid(l)} :: 0 <= l <= L ==> LayerLaid(l)
    }

    /** A model none of whose matrices has changed is still valid. */
    twostate lemma Unmoved()
      requires old(Valid()) && unchanged(this) && unchanged(old(Matrices()))
      ensures Valid()
    {
      forall l | 0 <= l <= L
        ensures LayerLaid(l)
      {
        assert old(LayerLaid(l));
      }
    }

    /** The layers the constructors allocate make a valid model. */
    lemma Assembled()
      requires Sized() && Slotted(a, z, W, b, buffers) && Laid(a, z, W, b, n, m)
      ensures Valid()
    {
      forall l | 0 <= l <= L
        ensures LayerLaid(l)
      {
      }
    }

    /** The caches forward propagation writes. */
    ghost function Caches(): set<array<real>>
      reads this
    {
      set x | x in buffers && (buffers[x].Act? || (buffers[x].PreAct? && buffers[x].l > 0))
    }

    /** Layer l holds z[l] = W[l] · a[l-1] + b[l] and a[l] = g[l](z[l]). */
    ghost predicate LayerPropagated(l: nat)
      reads this
      reads if Sized() && 1 <= l <= L then {W[l], a[l - 1], b[l], z[l], a[l]} else {}
      reads if Sized() && 1 <= l <= L then {W[l].data, a[l - 1].data, b[l].data, z[l].data, a[l].data} else {}
      requires Sized() && 1 <= l <= L
    {
      var Wl, P, Bl := W[l], a[l - 1], b[l];
      Wl.Valid() && P.Valid() && Bl.Valid() &&
      Wl.Cols() == P.Rows() && Bl.Rows() == Wl.Rows() && Bl.Cols() == 1 &&
      z[l].View() == Affine(Wl.View(), P.View(), Bl.View()) &&
      a[l].View() == Activate(g[l].value, z[l].View())
    }

    /** A layer whose matrices and buffers are untouched stays propagated. */
    twostate lemma LayerKept(l: nat)
      requires old(Valid()) && Valid() && 1 <= l <= L && old(LayerPropagated(l))
      requires unchanged(W[l], a[l - 1], b[l], z[l], a[l])
      requires unchanged(W[l].data, a[l - 1].data, b[l].data, z[l].data, a[l].data)
      ensures LayerPropagated(l)
    {
    }

    /** The data buffers of the layers. */
    ghost function Buffers(): set<array<real>>
      reads this
      requires Sized()
    {
      (set l | 0 <= l <= L :: a[l].data) + (set l | 0 <= l <= L :: z[l].data) +
      (set l | 0 <= l <= L :: b[l].data) + (set l | 1 <= l <= L :: W[l].data)
    }

    /** Every layer is propagated from the one before it. */
    ghost predicate Propagated()
      reads this, Matrices(), if Sized() then Buffers() else {}
      requires Valid()
    {
      forall l :: 1 <= l <= L ==> LayerPropagated(l)
    }

    /** The layer shapes of a valid model chain from the input cache a[0]. */
    lemma Chained()
      requires Valid()
      ensures Chain(Views(W), Views(b), g, a[0].View())
    {
      forall l | 1 <= l <= L
        ensures W[l].View().Valid() && W[l].View().Rows() == n[l] && W[l].View().Cols() == n[l - 1]
        ensures b[l].View().Valid() && b[l].View().Rows() == n[l] && b[l].View().Cols() == 1
      {
        assert LayerLaid(l);
      }
      assert LayerLaid(0);
    }

    /**
     * After forward propagation every cache a[l] holds the reference activations of layer l
     * for the input held in a[0].
     */
    lemma {:induction false} PropagatedIsForward(l: nat)
      requires Valid() && Propagated() && l <= L
      ensures Chain(Views(W), Views(b), g, a[0].View())
      ensures a[l].View() == Forward(Views(W), Views(b), g, a[0].View(), l)
    {
      Chained();
      if l > 0 {
        PropagatedIsForward(l - 1);
        assert LayerPropagated(l);
      }
    }

    /**
     * A model whose weights and biases were copied from this one (Model(model, m) of any batch
     * width) computes the same activations in every layer for every input.
     */
    lemma CopyAlike(other: Model, X: Mat, l: nat)
      requires Valid() && other.Valid() && other.n == n && other.g == g
      requires Copied(other.W, other.b, W, b)
      requires X.Valid() && X.Rows() == inputSize && l <= L
      ensures Chain(Views(W), Views(b), g, X) && Chain(Views(other.W), Views(other.b), other.g, X)
      ensures Forward(Views(other.W), Views(other.b), other.g, X, l) == Forward(Views(W), Views(b), g, X, l)
    {
      Chained();
      assert LayerLaid(0);
      var Ws, Bs, Ws', Bs' := Views(W), Views(b), Views(other.W), Views(other.b);
      forall k | 1 <= k <= L
        ensures Ws'[k] == Ws[k] && Bs'[k] == Bs[k]
      {
        assert LayerLaid(k) && other.LayerLaid(k);
        assert other.W[k].data[..] == W[k].data[..];
        assert other.b[k].data[..] == b[k].data[..];
      }
      ForwardSameLayers(Ws, Bs, Ws', Bs', g, X, l);
    }

    /** forwardPropagate's checks: logical shapes of in and out, then the physical shape a[0].set(in) compares. */
    predicate Accepts(input: Matrix, output: Matrix)
      reads this, input, output
    {
      input.Rows() == inputSize && input.Cols() == m && output.Rows() == outputSize && output.Cols() == m &&
      input.rows == inputSize && input.cols == m
    }

    /**
     * forwardPropagate(in, out): checks the logical shapes of in and out, copies in into a[0]
     * (a.set, which compares physical shapes), computes layers 1 .. L in order, then copies a[L]
     * into out (out.set, which compares physical shapes again, after the caches are written).
     */
    method ForwardPropagate(input: Matrix, output: Matrix) returns (r: Outcome)
      requires Valid() && input.Valid() && output.Valid()
      requires input.data !in buffers && output.data !in buffers
      modifies Caches(), output.data
      ensures Valid()
      ensures r.Pass? <==> Accepts(input, output) && output.rows == outputSize && output.cols == m
      ensures r.Fail? ==> r.error == IllegalArgument && output.data[..] == old(output.data[..])
      ensures !Accepts(input, output) ==> unchanged(Caches())
      ensures Accepts(input, output) ==> a[0].data[..] == old(input.data[..]) && Propagated()
      ensures r.Pass? ==> output.data[..] == a[L].data[..]
    {
      if input.Rows() != inputSize || input.Cols() != m {
        return Fail(IllegalArgument);
      }
      if output.Rows() != outputSize || output.Cols() != m {
        return Fail(IllegalArgument);
      }
      assert LayerLaid(0) && LayerLaid(L);
      r := a[0].SetFrom(input);
      if r.Fail? {
        return;
      }
      forall l' | 0 <= l' <= L
        ensures LayerLaid(l')
      {
        assert old(LayerLaid(l'));
      }
      assert LayerLaid(0);
      PropagateLayers();
      assert LayerLaid(0);
      r := CopyOut(output);
    }

    /** The weights and biases of layers 1 .. L, which training writes. */
    ghost function Parameters(): set<array<real>>
      reads this
    {
      set x | x in buffers && (buffers[x].Weight? || buffers[x].Bias?) && buffers[x].l > 0
    }

    /** The caches of layers 1 .. L, which the propagation steps write. */
    ghost function Computed(): set<array<real>>
      reads this
    {
      set x | x in buffers && (buffers[x].Act? || buffers[x].PreAct?) && buffers[x].l > 0
    }

    /** forwardPropagate's loop: computeForwardPropagationStep(l) for l = 1 .. L in order. */
    method PropagateLayers()
      requires Valid()
      modifies Computed()
      ensures Valid() && Propagated()
    {
      var l := 1;
      while l <= L
        invariant 1 <= l <= L + 1 && Valid()
        invariant forall l' :: 1 <= l' < l ==> LayerPropagated(l')
      {
        assert LayerLaid(l);
        ComputeForwardPropagationStep(l);
        l := l + 1;
      }
    }

    /** forwardPropagate's last statement, out.set(a[L]), on a propagated model. */
    method CopyOut(output: Matrix) returns (r: Outcome)
      requires Valid() && Propagated() && output.Valid() && output.data !in buffers
      requires output.Rows() == outputSize && output.Cols() == m
      modifies output.data
      ensures r.Pass? <==> output.rows == outputSize && output.cols == m
      ensures r.Fail? ==> r.error == IllegalArgument && output.data[..] == old(output.data[..])
      ensures Valid() && Propagated()
      ensures r.Pass? ==> output.data[..] == a[L].data[..]
    {
      label computed:
      assert LayerLaid(L);
      r := output.SetFrom(a[L]);
      forall l' | 0 <= l' <= L
        ensures LayerLaid(l')
      {
        assert old@computed(LayerLaid(l'));
      }
      forall l' | 1 <= l' <= L
        ensures LayerPropagated(l')
      {
        assert old@computed(LayerLaid(l') && LayerLaid(l' - 1));
        LayerKept@computed(l');
      }
    }

    /** computeForwardPropagationStep(l): dot, addBroadcasted of the bias, then the activation. */
    method ComputeForwardPropagationStep(l: nat)
      requires Valid() && 1 <= l <= L
      modifies z[l].data, a[l].data
      ensures Valid() && LayerPropagated(l)
      ensures forall l' :: 1 <= l' < l && old(LayerPropagated(l')) ==> LayerPropagated(l')
    {
      assert LayerLaid(l) && LayerLaid(l - 1);
      ComputeLayer(W[l], b[l], a[l - 1], z[l], a[l], g[l].value);
      forall l' | 0 <= l' <= L
        ensures LayerLaid(l')
      {
        assert old(LayerLaid(l'));
      }
      forall l' | 1 <= l' < l && old(LayerPropagated(l'))
        ensures LayerPropagated(l')
      {
        assert LayerLaid(l') && LayerLaid(l' - 1);
        LayerKept(l');
      }
    }

    /** One layer: z = W · prev + b, then a = f(z), with z and a in buffers of their own. */
    static method ComputeLayer(Wl: Matrix, bl: Matrix, prev: Matrix, zl: Matrix, al: Matrix, f: Activation)
      requires Wl.Valid() && bl.Valid() && prev.Valid() && zl.Valid() && al.Valid()
      requires Wl.Cols() == prev.Rows() && bl.Rows() == Wl.Rows() && bl.Cols() == 1
      requires !zl.transposed && zl.rows == Wl.Rows() && zl.cols == prev.Cols()
      requires !al.transposed && al.rows == zl.rows && al.cols == zl.cols
      requires zl.data != Wl.data && zl.data != prev.data && zl.data != bl.data
      requires al.data != Wl.data && al.data != prev.data && al.data != bl.data && al.data != zl.data
      modifies zl.data, al.data
      ensures zl.View() == Affine(Wl.View(), prev.View(), bl.View())
      ensures al.View() == Activate(f, zl.View())
    {
      var r := Matrix.Dot(Wl, prev, zl);
      ghost var product := zl.View();
      r := zl.AddBroadcasted(bl);
      AffineEquals(zl.View(), Wl.View(), prev.View(), bl.View());
      r := f.Get(zl.data, al.data);
      assert al.View().data == Activate(f, zl.View()).data;
    }

    /**
     * Model(g, layerSizes, m, initializer): throws IllegalArgumentException unless there is one
     * activation per weight layer, and otherwise builds the model.
     */
    static method New(activations: seq<Activation>, layerSizes: seq<nat>, m: nat, init: Initializer) returns (r: Result<Model>)
      ensures r.Err? <==> |activations| + 1 != |layerSizes|
      ensures r.Err? ==> r.error == IllegalArgument
      ensures r.Ok? ==> var model := r.value;
                fresh(model) && model.Valid() && model.n == layerSizes && model.m == m &&
                model.g == Shifted(activations) && Zeroed(model.a, model.z, model.b, model.n, m) &&
                (model.L > 0 ==> Drawn(model.W, init, layerSizes[model.L - 1], layerSizes[model.L]))
      ensures r.Ok? ==> fresh(r.value.Matrices()) && forall x :: x in r.value.buffers ==> fresh(x)
    {
      if |activations| + 1 != |layerSizes| {
        return Err(IllegalArgument);
      }
      var model := new Model(activations, layerSizes, m, init);
      return Ok(model);
    }

    /**
     * Model(g, layerSizes, m, initializer) on arguments that pass its check: zero caches and
     * biases, weights drawn from the initializer with the fans of the LAST layer.
     */
    constructor(activations: seq<Activation>, layerSizes: seq<nat>, m: nat, init: Initializer)
      requires |activations| + 1 == |layerSizes|
      ensures Valid()
      ensures n == layerSizes && this.m == m && L == |layerSizes| - 1
      ensures inputSize == layerSizes[0] && outputSize == layerSizes[L]
      ensures g == Shifted(activations)
      ensures L > 0 ==> Drawn(W, init, n[L - 1], n[L])
      ensures Zeroed(a, z, b, n, m)
      ensures fresh(Matrices()) && forall x :: x in buffers ==> fresh(x)
    {
      var newA, newZ, newW, newB, bufs := Allocate(layerSizes, m, init);
      n := layerSizes;
      this.m := m;
      inputSize := layerSizes[0];
      outputSize := layerSizes[|layerSizes| - 1];
      L := |layerSizes| - 1;
      g := Shifted(activations);
      a, z, W, b := newA, newZ, newW, newB;
      buffers := bufs;
      new;
      Assembled();
      OwnedSlotted(a, z, W, b, buffers);
      forall M | M in Matrices()
        ensures fresh(M)
      {
        assert M.data in buffers;
      }
    }

    /**
     * Model(model, m): the same layers for batch width m. The weights and the biases of layers
     * 1 .. L are copied (new Matrix(matrix) copies the buffer), the caches and b[0] are zero,
     * and the activations array is shared.
     */
    constructor Resize(model: Model, m: nat)
      requires model.Valid()
      ensures Valid()
      ensures n == model.n && this.m == m && L == model.L && g == model.g
      ensures inputSize == model.inputSize && outputSize == model.outputSize
      ensures Copied(W, b, model.W, model.b)
      ensures Cleared(a, z, n, m) && b[0].data[..] == Zeros(n[0])
      ensures fresh(Matrices()) && forall x :: x in buffers ==> fresh(x)
    {
      this.m := m;
      inputSize := model.inputSize;
      outputSize := model.outputSize;
      n := model.n;
      L := model.L;
      var newA, newZ, newW, newB, bufs := AllocateResized(model, m);
      label copied:
      a, z, W, b := newA, newZ, newW, newB;
      g := model.g;
      buffers := bufs;
      new;
      Assembled();
      OwnedSlotted(a, z, W, b, buffers);
      forall M | M in Matrices()
        ensures fresh(M)
      {
        assert M.data in buffers;
      }
    }

    /** The allocation loop of Model(model, m). */
    static method AllocateResized(model: Model, m: nat)
      returns (a: seq<Matrix>, z: seq<Matrix>, W: seq<Matrix?>, b: seq<Matrix>, ghost buffers: map<array<real>, Slot>)
      requires model.Valid()
      ensures Slotted(a, z, W, b, buffers) && Laid(a, z, W, b, model.n, m)
      ensures |a| == |model.n| && W[0] == null
      ensures Copied(W, b, model.W, model.b) && Cleared(a, z, model.n, m) && b[0].data[..] == Zeros(model.n[0])
      ensures forall x :: x in buffers ==> fresh(x)
    {
      assert model.LayerLaid(0);
      var n0 := model.a[0].Rows();
      a, z, W, b, buffers := InputLayer(model.n, n0, m);
      var b0 := b[0];
      while |a| <= model.L
        invariant Slotted(a, z, W, b, buffers) && Laid(a, z, W, b, model.n, m)
        invariant Copied(W, b, model.W, model.b) && Cleared(a, z, model.n, m)
        invariant 1 <= |a| <= model.L + 1 && W[0] == null && b[0] == b0 && b0.data[..] == Zeros(model.n[0])
        invariant forall x :: x in buffers ==> fresh(x)
        decreases model.L + 1 - |a|
      {
        var l := |a|;
        assert old(model.LayerLaid(l)) && unchanged(model.a[l], model.W[l], model.b[l]);
        var rows := model.a[l].Rows();
        a, z, W, b, buffers := GrowResized(a, z, W, b, buffers, model.n, m, rows, model.W[l], model.b[l], model.W, model.b);
      }
    }

    /** The matrices of layer 0 in Model(model, m): zero caches of height n0 and a zero bias, and no weights. */
    static method InputLayer(n: seq<nat>, n0: nat, m: nat)
      returns (a: seq<Matrix>, z: seq<Matrix>, W: seq<Matrix?>, b: seq<Matrix>, ghost buffers: map<array<real>, Slot>)
      requires |n| > 0 && n0 == n[0]
      ensures Slotted(a, z, W, b, buffers) && Laid(a, z, W, b, n, m) && Cleared(a, z, n, m)
      ensures |a| == 1 && W[0] == null && b[0].data[..] == Zeros(n0)
      ensures forall x :: x in buffers ==> fresh(x)
    {
      var a0 := new Matrix(n0, m);
      var z0 := new Matrix(n0, m);
      var b0 := new Matrix(n0, 1);
      a, z, W, b := [a0], [z0], [null], [b0];
      buffers := map[a0.data := Act(0), z0.data := PreAct(0), b0.data := Bias(0)];
    }

    /** One iteration of Model(model, m)'s loop: zero caches of the given height and copies of the weights and bias. */
    static method GrowResized(a: seq<Matrix>, z: seq<Matrix>, W: seq<Matrix?>, b: seq<Matrix>, ghost buffers: map<array<real>, Slot>,
                              n: seq<nat>, m: nat, rows: nat, Wsrc: Matrix, bsrc: Matrix, ghost W0: seq<Matrix?>, ghost b0: seq<Matrix>)
      returns (a': seq<Matrix>, z': seq<Matrix>, W': seq<Matrix?>, b': seq<Matrix>, ghost buffers': map<array<real>, Slot>)
      requires Slotted(a, z, W, b, buffers) && Laid(a, z, W, b, n, m)
      requires Copied(W, b, W0, b0) && Cleared(a, z, n, m)
      requires 0 < |a| < |n| && |a| < |W0| && W0[|a|] == Wsrc && b0[|a|] == bsrc && rows == n[|a|]
      requires Shaped(Wsrc, n[|a|], n[|a| - 1]) && Shaped(bsrc, n[|a|], 1)
      ensures Slotted(a', z', W', b', buffers') && Laid(a', z', W', b', n, m)
      ensures Copied(W', b', W0, b0) && Cleared(a', z', n, m)
      ensures |a'| == |a| + 1 && W'[0] == W[0] && b'[0] == b[0]
      ensures forall x :: x in buffers' && x !in buffers ==> fresh(x)
    {
      var l := |a|;
      var al, zl, Wl, bl := NewResizedLayer(rows, m, Wsrc, bsrc);
      assert forall x :: x in buffers ==> x != al.data && x != zl.data && x != Wl.data && x != bl.data;
      SlottedGrow(a, z, W, b, buffers, al, zl, Wl, bl);
      LaidGrow(a, z, W, b, n, m, al, zl, Wl, bl);
      ClearedGrow(a, z, n, m, al, zl);
      CopiedGrow(W, b, W0, b0, Wl, bl);
      WithLayerAdds(buffers, l, al, zl, Wl, bl);
      a', z', W', b' := a + [al], z + [zl], W + [Wl], b + [bl];
      buffers' := WithLayer(buffers, l, al, zl, Wl, bl);
    }

    /** The four matrices of one layer of Model(model, m), allocated in its order. */
    static method NewResizedLayer(rows: nat, m: nat, Wsrc: Matrix, bsrc: Matrix) returns (al: Matrix, zl: Matrix, Wl: Matrix, bl: Matrix)
      requires Wsrc.Valid() && bsrc.Valid()
      ensures fresh(al) && fresh(al.data) && Shaped(al, rows, m) && al.data[..] == Zeros(rows * m)
      ensures fresh(zl) && fresh(zl.data) && Shaped(zl, rows, m) && zl.data[..] == Zeros(rows * m)
      ensures fresh(Wl) && fresh(Wl.data) && Wl.rows == Wsrc.rows && Wl.cols == Wsrc.cols && Wl.transposed == Wsrc.transposed
      ensures Wl.data.Length == Wsrc.data.Length && forall p :: 0 <= p < Wl.data.Length ==> Wl.data[p] == Wsrc.data[p]
      ensures fresh(bl) && fresh(bl.data) && bl.rows == bsrc.rows && bl.cols == bsrc.cols && bl.transposed == bsrc.transposed
      ensures bl.data.Length == bsrc.data.Length && forall p :: 0 <= p < bl.data.Length ==> bl.data[p] == bsrc.data[p]
      ensures al.data != zl.data && al.data != Wl.data && al.data != bl.data
      ensures zl.data != Wl.data && zl.data != bl.data && Wl.data != bl.data
    {
      al := new Matrix(rows, m);
      zl := new Matrix(rows, m);
      Wl := new Matrix.Copy(Wsrc);
      bl := new Matrix.Copy(bsrc);
    }

    /**
     * The constructor's loop together with initializeWeights: the caches and biases are zero
     * matrices, each with a buffer of its own, and the weights of every layer are drawn with
     * fanIn = W[L].cols() = n[L - 1] and fanOut = W[L].rows() = n[L], the fans of the LAST layer.
     * The draws are named by layer and cell, so drawing layer l's weights right after allocating
     * them gives the weights Java's separate initializeWeights loop gives.
     */
    static method Allocate(n: seq<nat>, m: nat, init: Initializer)
      returns (a: seq<Matrix>, z: seq<Matrix>, W: seq<Matrix?>, b: seq<Matrix>, ghost buffers: map<array<real>, Slot>)
      requires |n| > 0
      ensures Slotted(a, z, W, b, buffers) && Laid(a, z, W, b, n, m) && Zeroed(a, z, b, n, m)
      ensures |a| == |n| && W[0] == null
      ensures |n| > 1 ==> Drawn(W, init, n[|n| - 2], n[|n| - 1])
      ensures forall x :: x in buffers ==> fresh(x)
    {
      var fanIn, fanOut := 0, 0;
      if |n| > 1 {
        fanIn, fanOut := n[|n| - 2], n[|n| - 1];
      }
      var a0 := new Matrix(n[0], m);
      var z0 := new Matrix(n[0], m);
      var b0 := new Matrix(n[0], 1);
      a, z, W, b := [a0], [z0], [null], [b0];
      buffers := map[a0.data := Act(0), z0.data := PreAct(0), b0.data := Bias(0)];
      while |a| < |n|
        invariant Slotted(a, z, W, b, buffers) && Laid(a, z, W, b, n, m) && Zeroed(a, z, b, n, m)
        invariant 1 <= |a| <= |n| && W[0] == null && Drawn(W, init, fanIn, fanOut)
        invariant forall x :: x in buffers ==> fresh(x)
        decreases |n| - |a|
      {
        a, z, W, b, buffers := Grow(a, z, W, b, buffers, n, m, init, fanIn, fanOut);
      }
    }

    /** One iteration of the constructor's loop: the matrices of layer |a|, with their weights drawn. */
    static method Grow(a: seq<Matrix>, z: seq<Matrix>, W: seq<Matrix?>, b: seq<Matrix>, ghost buffers: map<array<real>, Slot>,
                       n: seq<nat>, m: nat, init: Initializer, fanIn: nat, fanOut: nat)
      returns (a': seq<Matrix>, z': seq<Matrix>, W': seq<Matrix?>, b': seq<Matrix>, ghost buffers': map<array<real>, Slot>)
      requires Slotted(a, z, W, b, buffers) && Laid(a, z, W, b, n, m) && Zeroed(a, z, b, n, m)
      requires 0 < |a| < |n| && Drawn(W, init, fanIn, fanOut)
      ensures Slotted(a', z', W', b', buffers') && Laid(a', z', W', b', n, m) && Zeroed(a', z', b', n, m)
      ensures |a'| == |a| + 1 && W'[0] == W[0] && Drawn(W', init, fanIn, fanOut)
      ensures forall x :: x in buffers' && x !in buffers ==> fresh(x)
    {
      var l := |a|;
      var al, zl, Wl, bl := NewLayer(n[l], n[l - 1], m, init, fanIn, fanOut, l);
      DrawnGrow(W, init, fanIn, fanOut, Wl);
      assert forall x :: x in buffers ==> x != al.data && x != zl.data && x != Wl.data && x != bl.data;
      SlottedGrow(a, z, W, b, buffers, al, zl, Wl, bl);
      LaidGrow(a, z, W, b, n, m, al, zl, Wl, bl);
      ZeroedGrow(a, z, b, n, m, al, zl, bl);
      a', z', W', b' := a + [al], z + [zl], W + [Wl], b + [bl];
      buffers' := WithLayer(buffers, l, al, zl, Wl, bl);
      WithLayerAdds(buffers, l, al, zl, Wl, bl);
    }

    /**
     * The four matrices of layer l, allocated in the constructor's order: zero caches and bias,
     * and weights that initializeWeights fills with draws (l, 0), (l, 1), ...
     */
    static method NewLayer(rows: nat, prev: nat, m: nat, init: Initializer, fanIn: nat, fanOut: nat, l: nat)
      returns (al: Matrix, zl: Matrix, Wl: Matrix, bl: Matrix)
      ensures fresh(al) && fresh(al.data) && Shaped(al, rows, m) && al.data[..] == Zeros(rows * m)
      ensures fresh(zl) && fresh(zl.data) && Shaped(zl, rows, m) && zl.data[..] == Zeros(rows * m)
      ensures fresh(Wl) && fresh(Wl.data) && Shaped(Wl, rows, prev)
      ensures forall p :: 0 <= p < Wl.data.Length ==> Wl.data[p] == init(fanIn, fanOut, l, p)
      ensures fresh(bl) && fresh(bl.data) && Shaped(bl, rows, 1) && bl.data[..] == Zeros(rows)
      ensures al.data != zl.data && al.data != Wl.data && al.data != bl.data
      ensures zl.data != Wl.data && zl.data != bl.data && Wl.data != bl.data
    {
      al := new Matrix(rows, m);
      zl := new Matrix(rows, m);
      Wl := new Matrix(rows, prev);
      bl := new Matrix(rows, 1);
      FillWeights(Wl.data, init, fanIn, fanOut, l);
    }

    /** The inner loop of initializeWeights: cell p of layer l's weights receives draw (l, p). */
    static method FillWeights(weights: array<real>, init: Initializer, fanIn: nat, fanOut: nat, l: nat)
      modifies weights
      ensures forall p :: 0 <= p < weights.Length ==> weights[p] == init(fanIn, fanOut, l, p)
    {
      var i := 0;
      while i < weights.Length
        invariant 0 <= i <= weights.Length
        invariant forall p :: 0 <= p < i ==> weights[p] == init(fanIn, fanOut, l, p)
      {
        weights[i] := init(fanIn, fanOut, l, i);
        i := i + 1;
      }
    }
  }
}
