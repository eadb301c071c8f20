/**
  Numbers of the dashboard's float columns. numpy's NaN, which the source
  returns for every out-of-range curve access, is the explicit `Missing`;
  `+` and `-` propagate it exactly as NaN arithmetic does.
 */
module Numeric {

  datatype Num = Missing | Val(v: real)

  const Zero: Num := Val(0.0)

  /** numpy `a + b`: Missing as soon as one operand is. */
  function Add(a: Num, b: Num): (r: Num)
    ensures r.Val? <==> a.Val? && b.Val?
    ensures r.Val? ==> r.v == a.v + b.v
  {
    match (a, b)
    case (Val(x), Val(y)) => Val(x + y)
    case _ => Missing
  }

  /** numpy `a - b`: Missing as soon as one operand is. */
  function Sub(a: Num, b: Num): (r: Num)
    ensures r.Val? <==> a.Val? && b.Val?
    ensures r.Val? ==> r.v == a.v - b.v
  {
    match (a, b)
    case (Val(x), Val(y)) => Val(x - y)
    case _ => Missing
  }
}
