/** Facts about division that the solver does not find on its own. */
module Arithmetic {
  lemma DivisionUnique(x: nat, d: nat, quotient: int, rest: int)
    requires d > 0 && x == quotient * d + rest && 0 <= rest < d
    ensures x / d == quotient && x % d == rest
  {
    var gap := x / d - quotient;
    assert gap * d == rest - x % d;
    assert gap >= 1 ==> gap * d >= d;
    assert gap <= -1 ==> gap * d <= -1 * d;
  }
}
