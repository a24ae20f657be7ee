/** The smaller of two whole numbers, as `min` in both host languages. */
module Arithmetic {
  function Min(a: int, b: int): int {
    if a < b then a else b
  }
}
