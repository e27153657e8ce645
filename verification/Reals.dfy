/** Products under names of their own, so that a proof can speak of one without its arithmetic. */
module Reals {

  function Product(a: real, b: real): real {
    a * b
  }

  function Square(x: real): real {
    x * x
  }

  function Abs(x: real): (r: real)
    ensures r >= 0.0 && r >= x && r >= -x && (r == x || r == -x)
  {
    if x < 0.0 then -x else x
  }
}
