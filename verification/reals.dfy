/** Facts of real arithmetic the momentum models share. */
module Reals {
  function Abs(x: real): real {
    if x < 0.0 then -x else x
  }

  lemma Reciprocal(x: real)
    requires 0.0 < x
    ensures 0.0 < 1.0 / x && x * (1.0 / x) == 1.0
  {
  }
}
