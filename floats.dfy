/** Where the scripts meet floating point beyond plain sums: a division whose
    divisor may be zero, and the cast of a float to an integer. Operands are exact
    reals; a quotient is a finite value or one of the special values IEEE 754
    division produces. */
module Floats {

  datatype Float = Finite(v: real) | PosInf | NegInf | NaN

  /** `a / b` on floats: exact when `b` is not zero; `x / 0` is +inf, -inf or NaN
      by the sign of `x`. */
  function Div(a: real, b: real): (q: Float)
    ensures q.Finite? <==> b != 0.0
    ensures q.Finite? ==> q.v * b == a
    ensures q == PosInf <==> b == 0.0 && a > 0.0
    ensures q == NegInf <==> b == 0.0 && a < 0.0
    ensures q == NaN <==> b == 0.0 && a == 0.0
  {
    if b != 0.0 then Finite(a / b)
    else if a > 0.0 then PosInf
    else if a < 0.0 then NegInf
    else NaN
  }

  /** `fillna(x)`: NaN becomes `x`, everything else is kept. */
  function FillNaN(q: Float, x: real): (r: Float)
    ensures r != NaN
    ensures q != NaN ==> r == q
  {
    if q == NaN then Finite(x) else q
  }

  /** `replace([float("inf")], x)`: only +inf becomes `x`. */
  function ReplacePosInf(q: Float, x: real): (r: Float)
    ensures r != PosInf
    ensures q != PosInf ==> r == q
  {
    if q == PosInf then Finite(x) else q
  }

  /** `astype(int)` on a float: the integer part, rounding toward zero. */
  function TruncZero(x: real): (n: int)
    ensures 0.0 <= x ==> n as real <= x < n as real + 1.0
    ensures x < 0.0 ==> n as real - 1.0 < x <= n as real
  {
    if x >= 0.0 then x.Floor else -((-x).Floor)
  }

  /** Truncation keeps whole numbers and never moves away from zero. */
  lemma TruncZeroMeaning(x: real, k: int)
    ensures TruncZero(k as real) == k
    ensures 0 <= TruncZero(x) * TruncZero(x) && (TruncZero(x) as real) * (TruncZero(x) as real) <= x * x
  {
    var n := TruncZero(x);
    if x >= 0.0 {
      assert 0.0 <= n as real <= x;
    } else {
      assert x <= n as real <= 0.0;
    }
  }
}
