/**
 * JavaScript numbers as the solvers use them: NaN, a signed infinity, or a
 * finite value. A finite value is held as an exact real, so rounding to the
 * nearest double is not modelled, and neither is the sign of zero (every zero
 * is +0).
 */
module JsNumber {

  datatype Num = NaN | Inf(negative: bool) | Fin(v: real)

  /** What `parseFloat` gives for a form field: NaN, or a finite number. */
  type Field = x: Num | !x.Inf? witness NaN

  const Zero: Num := Fin(0.0)

  function Neg(a: Num): Num {
    match a
    case NaN => NaN
    case Inf(n) => Inf(!n)
    case Fin(x) => Fin(-x)
  }

  /** `a + b`; Infinity + -Infinity is NaN. */
  function Add(a: Num, b: Num): Num {
    match (a, b)
    case (Fin(x), Fin(y)) => Fin(x + y)
    case (Inf(p), Inf(q)) => if p == q then a else NaN
    case (Inf(_), Fin(_)) => a
    case (Fin(_), Inf(_)) => b
    case _ => NaN
  }

  /** `a - b`. */
  function Sub(a: Num, b: Num): Num {
    Add(a, Neg(b))
  }

  /** `a * b`; zero times an infinity is NaN. */
  function Mul(a: Num, b: Num): Num {
    match (a, b)
    case (Fin(x), Fin(y)) => Fin(x * y)
    case (Inf(p), Inf(q)) => Inf(p != q)
    case (Inf(p), Fin(y)) => if y == 0.0 then NaN else Inf(p != (y < 0.0))
    case (Fin(x), Inf(q)) => if x == 0.0 then NaN else Inf(q != (x < 0.0))
    case _ => NaN
  }

  /** `a / b`; a nonzero finite value over zero is an infinity, zero over zero is NaN. */
  function Div(a: Num, b: Num): Num {
    match (a, b)
    case (Fin(x), Fin(y)) =>
      if y != 0.0 then Fin(x / y) else if x == 0.0 then NaN else Inf(x < 0.0)
    case (Fin(_), Inf(_)) => Fin(0.0)
    case (Inf(p), Fin(y)) => Inf(p != (y < 0.0))
    case _ => NaN
  }

  /** `a < b`: false whenever either side is NaN. */
  predicate Lt(a: Num, b: Num) {
    match (a, b)
    case (Fin(x), Fin(y)) => x < y
    case (Inf(p), Inf(q)) => p && !q
    case (Inf(p), Fin(_)) => p
    case (Fin(_), Inf(q)) => !q
    case _ => false
  }

  /** `a <= b`: false whenever either side is NaN. */
  predicate Le(a: Num, b: Num) {
    !a.NaN? && !b.NaN? && !Lt(b, a)
  }

  /** `Math.log(a)`, given the natural logarithm `ln` on positive reals. */
  function Log(a: Num, ln: real -> real): Num {
    match a
    case Fin(x) => if x > 0.0 then Fin(ln(x)) else if x == 0.0 then Inf(true) else NaN
    case Inf(n) => if n then NaN else a
    case NaN => NaN
  }

  /**
   * `Number(a.toFixed(3))`: the number of thousandths nearest to `a`, a tie
   * going away from zero; magnitudes of 1e21 and more are printed unchanged.
   */
  function ToFixed3(a: Num): (r: Num)
    ensures !a.Fin? ==> r == a
    ensures a.Fin? ==> r.Fin? && -0.0005 <= r.v - a.v <= 0.0005
    ensures a.Fin? && -1000000000000000000000.0 < a.v < 1000000000000000000000.0 ==>
      (r.v * 1000.0).Floor as real == r.v * 1000.0
  {
    match a
    case Fin(x) =>
      var m := if x < 0.0 then -x else x;
      if m >= 1000000000000000000000.0 then a
      else
        var n := (m * 1000.0 + 0.5).Floor;
        assert n as real <= m * 1000.0 + 0.5 < n as real + 1.0;
        var rounded := n as real / 1000.0;
        assert rounded * 1000.0 == n as real;
        assert -0.0005 <= rounded - m <= 0.0005;
        assert (-rounded * 1000.0).Floor == -n;
        Fin(if x < 0.0 then -rounded else rounded)
    case _ => a
  }
}
