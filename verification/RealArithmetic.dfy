/** The few facts about products and quotients of reals that the proofs lean on. */
module RealArithmetic {

  function ProRata(whole: real, part: real, of: real): real
    requires of != 0.0
  {
    whole * part / of
  }

  lemma {:induction false} CancelFactor(a: real, b: real)
    requires b != 0.0
    ensures a * b / b == a && a / b * b == a
  {}

  lemma {:induction false} ProductMonotone(a: real, b: real, c: real)
    requires 0.0 <= c
    ensures a <= b ==> a * c <= b * c
    ensures a < b && 0.0 < c ==> a * c < b * c
  {}

  lemma {:induction false} QuotientPositive(a: real, b: real)
    requires 0.0 < b
    ensures 0.0 < a ==> 0.0 < a / b
    ensures 0.0 <= a ==> 0.0 <= a / b
  {
    CancelFactor(a, b);
  }

  lemma {:induction false} QuotientBelowOne(a: real, b: real)
    requires 0.0 <= a <= b && 0.0 < b
    ensures 0.0 <= a / b <= 1.0
    ensures a < b ==> a / b < 1.0
  {
    CancelFactor(a, b);
    QuotientPositive(a, b);
    ProductMonotone(1.0, a / b, b);
  }
}
