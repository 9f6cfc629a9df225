/** Small types and arithmetic shared by the modules. */
module Prelude {

  datatype Option<+T> = None | Some(value: T)

  function Min(a: real, b: real): real { if a <= b then a else b }

  function Max(a: real, b: real): real { if a <= b then b else a }

  function Abs(a: real): real { if a < 0.0 then -a else a }

  /** A product of a factor that is not negative with a larger number is larger. */
  lemma ScaleUp(f: real, a: real, b: real)
    requires 0.0 <= f && a <= b
    ensures f * a <= f * b && a * f <= b * f
  {
    assert 0.0 <= f * (b - a);
  }

  /** Division by a positive number keeps the order. */
  lemma DivideUp(f: real, a: real, b: real)
    requires 0.0 < f && a <= b
    ensures a / f <= b / f
  {
    assert b / f - a / f == (b - a) / f;
  }

  /** A product divided by one of its factors. */
  lemma QuotientIs(a: real, f: real, x: real)
    requires f != 0.0 && a == x * f
    ensures a / f == x
  {
    assert (a / f) * f == a;
    assert (a / f - x) * f == 0.0;
  }
}
