/** ActivationFunction.java: element-wise activations, their derivatives, and an in-place softmax. */
module Activations {
  import opened Errors
  import N = Numerics

  /** The activation constants of the interface, by name. */
  datatype Activation = LeakyRelu | Tanh | SoftPlus | Sin | Elu | Swish | Identity | Relu | Sigmoid {

    /**
     * getImpl(x): the activation of one element. The rectifiers and ELU pass positive inputs
     * through, ReLU never goes below zero or the input, ELU never reaches -1, the logistic lies
     * strictly between 0 and 1, and Swish is x times the logistic of x.
     */
    function GetImpl(x: real): (y: real)
      ensures (Relu? || LeakyRelu? || Elu? || Identity?) && x > 0.0 ==> y == x
      ensures Relu? ==> y >= 0.0 && y >= x
      ensures LeakyRelu? ==> (y > 0.0 <==> x > 0.0) && y >= 0.01 * x
      ensures Elu? ==> y > -1.0
      ensures Sigmoid? ==> 0.0 < y < 1.0
      ensures Swish? ==> y == x * N.Sigmoid(x)
    {
      match this
      case LeakyRelu => if x <= 0.0 then 0.01 * x else x
      case Tanh => N.Tanh(x)
      case SoftPlus => N.Log(1.0 + N.Exp(x))
      case Sin => N.Sin(x)
      case Elu => if x > 0.0 then x else N.Exp(x) - 1.0
      case Swish => x / (1.0 + N.Exp(-x))
      case Identity => x
      case Relu => if x <= 0.0 then 0.0 else x
      case Sigmoid => N.Sigmoid(x)
    }

    /**
     * derivImpl(x): the derivative of the activation at one element. The piecewise-linear
     * slopes lie in [0, 1], the logistic's lies in (0, 1/4], softplus's in (0, 1), and ELU's is
     * positive and, up to zero, equals getImpl(x) + 1.
     */
    function DerivImpl(x: real): (d: real)
      ensures PiecewiseLinear() ==> 0.0 <= d <= 1.0
      ensures Sigmoid? ==> 0.0 < d <= 0.25
      ensures SoftPlus? ==> 0.0 < d < 1.0
      ensures Elu? ==> d > 0.0 && (x <= 0.0 ==> d == GetImpl(x) + 1.0)
    {
      match this
      case LeakyRelu => if x <= 0.0 then 0.01 else 1.0
      case Tanh => var t := N.Tanh(x); 1.0 - t * t
      case SoftPlus => N.Sigmoid(x)
      case Sin => N.Cos(x)
      case Elu => if x > 0.0 then 1.0 else N.Exp(x)
      case Swish => var s := N.Sigmoid(x); s * (1.0 + x * (1.0 - s))
      case Identity => 1.0
      case Relu => if x <= 0.0 then 0.0 else 1.0
      case Sigmoid =>
        var s := N.Sigmoid(x);
        LogisticSlope(s);
        s * (1.0 - s)
    }

    /** The piecewise-linear activations: ReLU, leaky ReLU and the identity. */
    predicate PiecewiseLinear()
    {
      this == Relu || this == LeakyRelu || this == Identity
    }

    /** get(x, out): out[i] := getImpl(x[i]) after checking the lengths; x may be out itself. */
    method Get(x: array<real>, out: array<real>) returns (r: Outcome)
      modifies out
      ensures r.Fail? <==> x.Length != out.Length
      ensures r.Fail? ==> r.error == IllegalArgument && out[..] == old(out[..])
      ensures r.Pass? ==> forall i :: 0 <= i < out.Length ==> out[i] == GetImpl(old(x[i]))
      ensures x != out ==> x[..] == old(x[..])
    {
      if x.Length != out.Length {
        return Fail(IllegalArgument);
      }
      var i := 0;
      while i < x.Length
        invariant 0 <= i <= x.Length
        invariant forall k :: 0 <= k < i ==> out[k] == GetImpl(old(x[k]))
        invariant forall k :: i <= k < x.Length ==> x[k] == old(x[k])
        invariant x != out ==> x[..] == old(x[..])
      {
        out[i] := GetImpl(x[i]);
        i := i + 1;
      }
      r := Pass;
    }

    /** deriv(x, out): out[i] := derivImpl(x[i]) after checking the lengths; x may be out itself. */
    method Deriv(x: array<real>, out: array<real>) returns (r: Outcome)
      modifies out
      ensures r.Fail? <==> x.Length != out.Length
      ensures r.Fail? ==> r.error == IllegalArgument && out[..] == old(out[..])
      ensures r.Pass? ==> forall i :: 0 <= i < out.Length ==> out[i] == DerivImpl(old(x[i]))
      ensures x != out ==> x[..] == old(x[..])
    {
      if x.Length != out.Length {
        return Fail(IllegalArgument);
      }
      var i := 0;
      while i < x.Length
        invariant 0 <= i <= x.Length
        invariant forall k :: 0 <= k < i ==> out[k] == DerivImpl(old(x[k]))
        invariant forall k :: i <= k < x.Length ==> x[k] == old(x[k])
        invariant x != out ==> x[..] == old(x[..])
      {
        out[i] := DerivImpl(x[i]);
        i := i + 1;
      }
      r := Pass;
    }
  }

  /** For s strictly between 0 and 1, s(1 - s) is positive and at most 1/4. */
  lemma LogisticSlope(s: real)
    requires 0.0 < s < 1.0
    ensures 0.0 < s * (1.0 - s) <= 0.25
  {
    var e := s - 0.5;
    assert s * (1.0 - s) == 0.25 - e * e;
    assert e * e >= 0.0;
  }

  /** The derivative of x·s rewritten around f = x·s: s(1 + x(1 - s)) = f + s(1 - f). */
  lemma SwishSlope(x: real, s: real)
    ensures s * (1.0 + x * (1.0 - s)) == x * s + s * (1.0 - x * s)
  {
  }

  /**
   * The smooth activations whose derivative the code computes from the activation itself:
   * for f = getImpl(x), the logistic's is f(1 - f), tanh's is 1 - f², and Swish's is
   * f + σ(x)(1 - f).
   */
  lemma SlopeFromValue(x: real)
    ensures Sigmoid.DerivImpl(x) == Sigmoid.GetImpl(x) * (1.0 - Sigmoid.GetImpl(x))
    ensures Tanh.DerivImpl(x) == 1.0 - Tanh.GetImpl(x) * Tanh.GetImpl(x)
    ensures Swish.DerivImpl(x) == Swish.GetImpl(x) + N.Sigmoid(x) * (1.0 - Swish.GetImpl(x))
  {
    var s := N.Sigmoid(x);
    assert Swish.GetImpl(x) == x * s;
    SwishSlope(x, s);
  }

  /** ReLU is non-negative, is the input or zero, and its derivative is 0 or 1. */
  lemma ReluShape(x: real)
    ensures Relu.GetImpl(x) >= 0.0 && (Relu.GetImpl(x) == x || Relu.GetImpl(x) == 0.0)
    ensures Relu.DerivImpl(x) == (if x <= 0.0 then 0.0 else 1.0)
  {
  }

  /** Leaky ReLU slopes by 0.01 up to and including zero, and by 1 above it. */
  lemma LeakyReluShape(x: real)
    ensures LeakyRelu.GetImpl(x) == (if x <= 0.0 then 0.01 * x else x)
    ensures LeakyRelu.DerivImpl(x) == (if x <= 0.0 then 0.01 else 1.0)
    ensures LeakyRelu.DerivImpl(0.0) == 0.01
  {
  }

  /** The identity passes values through with slope 1. */
  lemma IdentityShape(x: real)
    ensures Identity.GetImpl(x) == x && Identity.DerivImpl(x) == 1.0
  {
  }

  /** For the piecewise-linear activations the value is the slope times the input, and they are monotone. */
  lemma PiecewiseLinearSlope(f: Activation, x: real, y: real)
    requires f.PiecewiseLinear()
    ensures f.GetImpl(x) == f.DerivImpl(x) * x
    ensures x <= y ==> f.GetImpl(x) <= f.GetImpl(y)
    ensures f.DerivImpl(x) > 0.0 || f.GetImpl(x) == 0.0
  {
  }

  /** exp(s[i] - c) for every i. */
  function Exps(s: seq<real>, c: real): (e: seq<real>)
    ensures |e| == |s| && forall i :: 0 <= i < |s| ==> e[i] == N.Exp(s[i] - c)
  {
    seq(|s|, i requires 0 <= i < |s| => N.Exp(s[i] - c))
  }

  /** The numerically stable softmax: exp(s[i] - max) / Σ_j exp(s[j] - max). */
  function Softmax(s: seq<real>): (p: seq<real>)
    ensures |p| == |s|
  {
    if |s| == 0 then []
    else
      var e := Exps(s, N.Max(s));
      assert N.Sum(e) > 0.0 by { N.SumPositive(e); }
      Normalized(e)
  }

  /** Every term divided by the total. */
  function Normalized(e: seq<real>): (p: seq<real>)
    requires N.Sum(e) != 0.0
    ensures |p| == |e| && forall i :: 0 <= i < |e| ==> p[i] == e[i] / N.Sum(e)
  {
    seq(|e|, i requires 0 <= i < |e| => e[i] / N.Sum(e))
  }

  /** Every probability softmax assigns is positive. */
  lemma SoftmaxPositive(s: seq<real>)
    ensures forall i :: 0 <= i < |s| ==> Softmax(s)[i] > 0.0
  {
    if |s| > 0 {
      SoftmaxSumsToOne(s);
    }
  }

  /** Softmax entries are positive and, for a non-empty input, sum to 1. */
  lemma SoftmaxSumsToOne(s: seq<real>)
    requires |s| > 0
    ensures N.Sum(Softmax(s)) == 1.0
    ensures forall i :: 0 <= i < |s| ==> Softmax(s)[i] > 0.0
  {
    var e := Exps(s, N.Max(s));
    var p := Softmax(s);
    N.SumPositive(e);
    N.SumNormalized(e, p);
    forall i | 0 <= i < |s|
      ensures p[i] > 0.0
    {
      N.QuotientPositive(e[i], N.Sum(e));
    }
  }

  /** Shifting every input and the reference point by c leaves each exp(x - reference) unchanged. */
  lemma ExpsShifted(s: seq<real>, t: seq<real>, c: real, ms: real, mt: real)
    requires |t| == |s| && mt == ms + c
    requires forall i :: 0 <= i < |s| ==> t[i] == s[i] + c
    ensures Exps(t, mt) == Exps(s, ms)
  {
    var es, et := Exps(s, ms), Exps(t, mt);
    forall i | 0 <= i < |s|
      ensures et[i] == es[i]
    {
      assert t[i] - mt == s[i] - ms;
    }
  }

  /** Adding the same constant to every input leaves the softmax unchanged. */
  lemma SoftmaxShiftInvariant(s: seq<real>, t: seq<real>, c: real)
    requires |t| == |s|
    requires forall i :: 0 <= i < |s| ==> t[i] == s[i] + c
    ensures Softmax(t) == Softmax(s)
  {
    if |s| > 0 {
      N.MaxShifted(s, t, c);
      ExpsShifted(s, t, c, N.Max(s), N.Max(t));
    }
  }

  /** The first pass of the in-place softmax: the largest element, which is any value for an empty array. */
  method LargestElement(arr: array<real>) returns (max: real)
    ensures arr.Length > 0 ==> max == N.Max(arr[..])
  {
    max := if arr.Length > 0 then arr[0] else 0.0;
    var i := 0;
    while i < arr.Length
      invariant 0 <= i <= arr.Length
      invariant 0 < i ==> max == N.Max(arr[..i])
      invariant 0 < arr.Length && i == 0 ==> max == arr[0]
    {
      assert arr[..i + 1][..i] == arr[..i];
      if arr[i] > max {
        max := arr[i];
      }
      i := i + 1;
    }
    assert arr[..] == arr[..i];
  }

  /** The middle pass of the in-place softmax: arr[i] := exp(arr[i] - max), returning their sum. */
  method ExpShifted(arr: array<real>, max: real) returns (sum: real)
    modifies arr
    ensures arr[..] == Exps(old(arr[..]), max)
    ensures sum == N.Sum(arr[..])
  {
    ghost var s := arr[..];
    sum := 0.0;
    var i := 0;
    while i < arr.Length
      invariant 0 <= i <= arr.Length
      invariant forall k :: 0 <= k < i ==> arr[k] == N.Exp(s[k] - max)
      invariant forall k :: i <= k < arr.Length ==> arr[k] == s[k]
      invariant sum == N.Sum(arr[..i])
    {
      var x := N.Exp(arr[i] - max);
      arr[i] := x;
      assert arr[..i + 1][..i] == arr[..i];
      sum := sum + x;
      i := i + 1;
    }
    assert arr[..] == arr[..i];
  }

  /** The last pass of the in-place softmax: arr[i] := arr[i] / sum. */
  method DivideAll(arr: array<real>, sum: real)
    requires arr.Length > 0 ==> sum != 0.0
    modifies arr
    ensures forall k :: 0 <= k < arr.Length ==> arr[k] == old(arr[k]) / sum
  {
    var i := 0;
    while i < arr.Length
      invariant 0 <= i <= arr.Length
      invariant forall k :: 0 <= k < i ==> arr[k] == old(arr[k]) / sum
      invariant forall k :: i <= k < arr.Length ==> arr[k] == old(arr[k])
    {
      arr[i] := arr[i] / sum;
      i := i + 1;
    }
  }

  /**
   * softmax(arr): in place, arr := Softmax(arr). The maximum starts from the first element
   * where the source starts from negative infinity; an empty array is left as it is either way.
   */
  method SoftmaxInPlace(arr: array<real>)
    modifies arr
    ensures arr[..] == Softmax(old(arr[..]))
  {
    ghost var s := arr[..];
    var max := LargestElement(arr);
    var sum := ExpShifted(arr, max);
    if arr.Length > 0 {
      N.SumPositive(arr[..]);
    }
    DivideAll(arr, sum);
    assert forall k :: 0 <= k < arr.Length ==> arr[k] == Softmax(s)[k];
  }
}
