// The gradient buffers and the moments of the Adam optimiser, and how they are laid out
// beside the model's own matrices.
module Buffers {
  import opened Dense
  import opened Matrices
  import opened Models

  /** Which buffer of the optimiser a data array backs. */
  datatype Kind = DA | DZ | DW | DB | MW | VW | MB | VB | Out

  /** The role of a data buffer: its kind and its layer. */
  datatype Role = Role(kind: Kind, l: nat)

  /** M's buffer is registered with role r. */
  predicate Holds(roles: map<array<real>, Role>, M: Matrix, r: Role)
  {
    M.data in roles && roles[M.data] == r
  }

  /**
   * The gradient buffers of layer l: da and dz are n[l] x m, db is n[l] x 1 and dW (null at
   * position 0) is n[l] x n[l-1], each registered under its own role.
   */
  ghost predicate GradFitted(n: seq<nat>, m: nat, l: nat, dal: Matrix?, dzl: Matrix?, dWl: Matrix?, dbl: Matrix?,
                             roles: map<array<real>, Role>)
    reads dal, dzl, dWl, dbl
    requires l < |n|
  {
    dal != null && dzl != null && dbl != null && (l == 0 <==> dWl == null) &&
    Shaped(dal, n[l], m) && Shaped(dzl, n[l], m) && Shaped(dbl, n[l], 1) &&
    Holds(roles, dal, Role(DA, l)) && Holds(roles, dzl, Role(DZ, l)) && Holds(roles, dbl, Role(DB, l)) &&
    (dWl != null ==> l > 0 && Shaped(dWl, n[l], n[l - 1]) && Holds(roles, dWl, Role(DW, l)))
  }

  /** The moments of layer l: null at position 0, else shaped like the weights and the bias. */
  ghost predicate MomentFitted(n: seq<nat>, l: nat, mWl: Matrix?, vWl: Matrix?, mbl: Matrix?, vbl: Matrix?,
                               roles: map<array<real>, Role>)
    reads mWl, vWl, mbl, vbl
    requires l < |n|
  {
    if l == 0 then mWl == null && vWl == null && mbl == null && vbl == null
    else
      mWl != null && vWl != null && mbl != null && vbl != null &&
      Shaped(mWl, n[l], n[l - 1]) && Shaped(vWl, n[l], n[l - 1]) && Shaped(mbl, n[l], 1) && Shaped(vbl, n[l], 1) &&
      Holds(roles, mWl, Role(MW, l)) && Holds(roles, vWl, Role(VW, l)) &&
      Holds(roles, mbl, Role(MB, l)) && Holds(roles, vbl, Role(VB, l))
  }

  /** The matrices of Ms and their buffers. */
  ghost function Objects(Ms: seq<Matrix?>): set<object>
  {
    (set l | 0 <= l < |Ms| && Ms[l] != null :: Ms[l] as object) +
    (set l | 0 <= l < |Ms| && Ms[l] != null :: Ms[l].data as object)
  }

  /** The optimiser's arrays have L + 1 entries each, non-null wherever the constructor fills them. */
  ghost predicate Dimensioned(model: Model, L: nat, da: seq<Matrix?>, dz: seq<Matrix?>, dW: seq<Matrix?>, db: seq<Matrix?>,
                              mW: seq<Matrix?>, vW: seq<Matrix?>, mb: seq<Matrix?>, vb: seq<Matrix?>)
    reads model
  {
    model.Sized() && L == model.L &&
    |da| == |dz| == |dW| == |db| == |mW| == |vW| == |mb| == |vb| == L + 1 &&
    (forall l :: 0 <= l <= L ==> da[l] != null && dz[l] != null && db[l] != null) &&
    (forall l :: 1 <= l <= L ==> dW[l] != null && mW[l] != null && vW[l] != null && mb[l] != null && vb[l] != null)
  }

  /** The gradient buffers and the moments of layer l have their shapes and roles. */
  ghost predicate BuffersLaid(n: seq<nat>, m: nat, l: nat, dal: Matrix?, dzl: Matrix?, dWl: Matrix?, dbl: Matrix?,
                              mWl: Matrix?, vWl: Matrix?, mbl: Matrix?, vbl: Matrix?, roles: map<array<real>, Role>)
    reads dal, dzl, dWl, dbl, mWl, vWl, mbl, vbl
    requires l < |n|
  {
    GradFitted(n, m, l, dal, dzl, dWl, dbl, roles) && MomentFitted(n, l, mWl, vWl, mbl, vbl, roles)
  }

  /**
   * The model is valid, every buffer has its shape and role, the output buffer is outputSize x m
   * and no buffer of the optimiser is one of the model's.
   */
  ghost predicate Assembled(model: Model, L: nat, output: Matrix, da: seq<Matrix?>, dz: seq<Matrix?>, dW: seq<Matrix?>,
                            db: seq<Matrix?>, mW: seq<Matrix?>, vW: seq<Matrix?>, mb: seq<Matrix?>, vb: seq<Matrix?>,
                            roles: map<array<real>, Role>)
    reads model, model.Matrices(), output, (set M | M in da), (set M | M in dz), (set M | M in dW), (set M | M in db)
    reads (set M | M in mW), (set M | M in vW), (set M | M in mb), (set M | M in vb)
  {
    Dimensioned(model, L, da, dz, dW, db, mW, vW, mb, vb) && model.Valid() &&
    Shaped(output, model.outputSize, model.m) && Holds(roles, output, Role(Out, 0)) &&
    (forall x :: x in roles ==> x !in model.buffers) &&
    forall l {:trigger BuffersLaid(model.n, model.m, l, da[l], dz[l], dW[l], db[l], mW[l], vW[l], mb[l], vb[l], roles)} ::
      0 <= l <= L ==> BuffersLaid(model.n, model.m, l, da[l], dz[l], dW[l], db[l], mW[l], vW[l], mb[l], vb[l], roles)
  }
}
