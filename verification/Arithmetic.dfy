/** Facts about products that the window and rate arguments share. */
module Arithmetic {

  lemma MulMonotone(a: int, b: int, unit: int)
    requires a <= b && unit >= 0
    ensures a * unit <= b * unit
  {
  }
}
