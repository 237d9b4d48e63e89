/**
 * Real-valued stand-ins for the float arithmetic of the library. The transcendental
 * functions of java.lang.Math are left uninterpreted: only the positivity of exp is known.
 */
module Numerics {

  /** An arbitrary real function, from which the stand-in for Math.exp is built. */
  const RawExp: real -> real

  /** Math.exp, known only to be positive: any positive function has this form. */
  function Exp(x: real): (y: real)
    ensures y > 0.0
  {
    if RawExp(x) > 0.0 then RawExp(x) else 1.0
  }

  /** Math.log */
  const Log: real -> real
  /** Math.sqrt */
  const Sqrt: real -> real
  /** Math.pow */
  const Pow: (real, real) -> real
  /** Math.tanh */
  const Tanh: real -> real
  /** Math.sin */
  const Sin: real -> real
  /** Math.cos */
  const Cos: real -> real
  /** The IEEE infinity or NaN that a float division of x by zero yields. */
  const DivByZero: real -> real

  /** Float division: the quotient when the divisor is non-zero. */
  function FDiv(x: real, y: real): (q: real)
    ensures y != 0.0 ==> q * y == x
  {
    if y != 0.0 then x / y else DivByZero(x)
  }

  /**
   * Float multiplication. Named so that the solver treats products of matrix cells as
   * terms rather than as non-linear arithmetic.
   */
  function Mul(x: real, y: real): real
  {
    x * y
  }

  /** Math.max */
  function MaxOf(x: real, y: real): real
  {
    if x >= y then x else y
  }

  /** The largest element of a non-empty sequence, accumulated from the front. */
  function Max(s: seq<real>): (r: real)
    requires |s| > 0
    ensures forall i :: 0 <= i < |s| ==> s[i] <= r
    ensures exists i :: 0 <= i < |s| && s[i] == r
  {
    if |s| == 1 then s[0]
    else
      var front := Max(s[..|s| - 1]);
      assert forall i :: 0 <= i < |s| - 1 ==> s[..|s| - 1][i] == s[i];
      MaxOf(front, s[|s| - 1])
  }

  /** The sum of a sequence, accumulated from the front as the library's loops do. */
  function Sum(s: seq<real>): real
  {
    if |s| == 0 then 0.0 else Sum(s[..|s| - 1]) + s[|s| - 1]
  }

  /** The logistic function 1 / (1 + exp(-x)). */
  function Sigmoid(x: real): (y: real)
    ensures 0.0 < y < 1.0
  {
    var d := 1.0 + Exp(-x);
    assert d > 1.0;
    1.0 / d
  }

  /** Summing a sequence of terms each divided by c is dividing their sum by c. */
  lemma {:induction false} SumDivided(s: seq<real>, q: seq<real>, c: real)
    requires c != 0.0
    requires |q| == |s|
    requires forall i :: 0 <= i < |s| ==> q[i] == s[i] / c
    ensures Sum(q) == Sum(s) / c
  {
    if |s| > 0 {
      var n := |s| - 1;
      SumDivided(s[..n], q[..n], c);
      assert Sum(q) == Sum(s[..n]) / c + s[n] / c;
    }
  }

  /** Dividing every term by the (non-zero) total gives terms that sum to 1. */
  lemma SumNormalized(s: seq<real>, q: seq<real>)
    requires Sum(s) != 0.0
    requires |q| == |s|
    requires forall i :: 0 <= i < |s| ==> q[i] == s[i] / Sum(s)
    ensures Sum(q) == 1.0
  {
    var c := Sum(s);
    SumDivided(s, q, c);
    DivSelf(c);
  }

  /** A non-zero number divided by itself is 1. */
  lemma DivSelf(c: real)
    requires c != 0.0
    ensures c / c == 1.0
  {
  }

  /** A positive amount divided by a positive total is positive. */
  lemma QuotientPositive(x: real, y: real)
    requires x > 0.0 && y > 0.0
    ensures x / y > 0.0
  {
  }

  /** n equal amounts x, divided by n, give x back. */
  lemma MeanOfEqual(n: real, x: real)
    requires n != 0.0
    ensures FDiv(Mul(n, x), n) == x
  {
  }

  /** One more copy of x: n * x + x = (n + 1) * x. */
  lemma MulSucc(n: real, x: real)
    ensures Mul(n, x) + x == Mul(n + 1.0, x)
  {
  }

  /** A sum of n copies of x is n times x. */
  lemma {:induction false} SumConstant(s: seq<real>, x: real)
    requires forall i :: 0 <= i < |s| ==> s[i] == x
    ensures Sum(s) == Mul(|s| as real, x)
  {
    if |s| > 0 {
      SumConstant(s[..|s| - 1], x);
      MulSucc((|s| - 1) as real, x);
    }
  }

  /** Summing pointwise differences is subtracting the sums. */
  lemma {:induction false} SumDifference(s: seq<real>, t: seq<real>, d: seq<real>)
    requires |s| == |t| == |d|
    requires forall i :: 0 <= i < |s| ==> d[i] == s[i] - t[i]
    ensures Sum(d) == Sum(s) - Sum(t)
  {
    if |s| > 0 {
      var n := |s| - 1;
      SumDifference(s[..n], t[..n], d[..n]);
    }
  }

  /** Sums of positive terms are positive. */
  lemma {:induction false} SumPositive(s: seq<real>)
    requires |s| > 0
    requires forall i :: 0 <= i < |s| ==> s[i] > 0.0
    ensures Sum(s) > 0.0
  {
    if |s| > 1 {
      SumPositive(s[..|s| - 1]);
    }
  }

  /** Shifting every element by c shifts the maximum by c. */
  lemma {:induction false} MaxShifted(s: seq<real>, t: seq<real>, c: real)
    requires |s| > 0 && |t| == |s|
    requires forall i :: 0 <= i < |s| ==> t[i] == s[i] + c
    ensures Max(t) == Max(s) + c
  {
    if |s| > 1 {
      MaxShifted(s[..|s| - 1], t[..|t| - 1], c);
    }
  }
}
