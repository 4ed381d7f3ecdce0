/**
 * Swift's integer `/` and `%`, which truncate toward zero (Dafny's own
 * operators are Euclidean). Only positive divisors occur in the model.
 */
module SwiftInt {

  /** `a / b` in Swift. */
  function Quot(a: int, b: int): int
    requires b > 0
  {
    if a >= 0 then a / b else -((-a) / b)
  }

  /** `a % b` in Swift: the remainder takes the sign of the dividend. */
  function Rem(a: int, b: int): int
    requires b > 0
  {
    a - b * Quot(a, b)
  }

  lemma QuotRem(a: int, b: int)
    requires b > 0
    ensures Quot(a, b) * b + Rem(a, b) == a
    ensures a >= 0 ==> Quot(a, b) == a / b && Rem(a, b) == a % b && 0 <= Rem(a, b) < b
    ensures a < 0 ==> -b < Rem(a, b) <= 0 && Quot(a, b) <= 0
    ensures a < 0 ==> Quot(a, b) < 0 || Rem(a, b) < 0
  {
    if a < 0 {
      var q := (-a) / b;
      assert -a == q * b + (-a) % b;
    }
  }
}
