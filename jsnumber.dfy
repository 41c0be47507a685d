/** The JavaScript numbers the dashboard's trip counters can hold.

    Trip counters are integers, so a finite value is an unbounded `int`;
    besides those a JavaScript number can be NaN or an infinity, and the
    rating code tests for both (`Number.isFinite`, and the truthiness of a
    conditional). Fractional values and the loss of precision above 2^53
    are not represented.
 */
module JsNumber {

  datatype Num = Fin(v: int) | NaN | Inf(negative: bool)

  /** `Number.isFinite(x)`. */
  predicate IsFinite(x: Num) {
    x.Fin?
  }

  /** The truth value of `x` used as a condition: 0 and NaN are falsy,
      every other number (negative ones and the infinities included) is truthy. */
  predicate Truthy(x: Num) {
    !(x.NaN? || x == Fin(0))
  }

  /** JavaScript `a + b` under IEEE-754 rules for NaN and the infinities. */
  function Add(a: Num, b: Num): (r: Num)
    ensures r.Fin? <==> a.Fin? && b.Fin?
    ensures r.Fin? ==> r.v == a.v + b.v
    ensures r.NaN? <==> a.NaN? || b.NaN? || (a.Inf? && b.Inf? && a.negative != b.negative)
  {
    match (a, b)
    case (Fin(x), Fin(y)) => Fin(x + y)
    case (NaN, _) => NaN
    case (_, NaN) => NaN
    case (Inf(p), Inf(q)) => if p == q then Inf(p) else NaN
    case (Inf(p), Fin(_)) => Inf(p)
    case (Fin(_), Inf(q)) => Inf(q)
  }

  /** JavaScript unary `-x`. */
  function Negate(a: Num): (r: Num)
    ensures r.Fin? <==> a.Fin?
    ensures r.Fin? ==> r.v == -a.v
    ensures r.NaN? <==> a.NaN?
  {
    match a
    case Fin(x) => Fin(-x)
    case NaN => NaN
    case Inf(p) => Inf(!p)
  }
}
