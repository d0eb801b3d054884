/** Numeric helpers shared by the tank and shell models.

    The game calls System.Math for its trigonometry and square roots.  Those
    functions are not modelled: a value of type `Math` carries them as plain
    function values, and `Valid()` states the few facts about them that the
    proofs rely on.  Every operation that needs trigonometry takes such a value
    as a parameter. */
module MathLib {

  /** Math.PI, the double closest to pi, read as an exact real. */
  const PI: real := 3.141592653589793

  const TWO_PI: real := 2.0 * PI
  const HALF_PI: real := PI / 2.0

  /** The transcendental functions of System.Math, as injected values. */
  datatype Math = Math(
    sin: real -> real,
    cos: real -> real,
    atan: real -> real,
    acos: real -> real,
    sqrt: real -> real)
  {
    /** The facts about System.Math that the model uses. */
    ghost predicate Valid() {
      sin(0.0) == 0.0 && cos(0.0) == 1.0 && atan(0.0) == 0.0 && sqrt(0.0) == 0.0 &&
      (forall x :: -1.0 <= sin(x) <= 1.0) &&
      (forall x :: sin(-x) == -sin(x) && cos(-x) == cos(x)) &&
      (forall x :: -1.0 <= cos(x) <= 1.0) &&
      (forall x :: -HALF_PI < atan(x) < HALF_PI) &&
      (forall x :: 0.0 <= acos(x) <= PI) &&
      (forall x :: x >= 0.0 ==> sqrt(x) >= 0.0 && sqrt(x) * sqrt(x) == x)
    }

    /** sin^2 + cos^2 == 1, kept apart from Valid() because only the lemmas
        about lengths and speeds need it. */
    ghost predicate Pythagorean() {
      forall x :: sin(x) * sin(x) + cos(x) * cos(x) == 1.0
    }
  }

  function Abs(x: real): (r: real)
    ensures r >= 0.0 && (r == x || r == -x)
  {
    if x < 0.0 then -x else x
  }

  /** Math.Sign on a real argument. */
  function Sign(x: real): (r: int)
    ensures -1 <= r <= 1
    ensures r > 0 <==> x > 0.0
    ensures r < 0 <==> x < 0.0
  {
    if x > 0.0 then 1 else if x < 0.0 then -1 else 0
  }

  /** The C# cast `(int)x`: truncation toward zero. */
  function Truncate(x: real): (r: int)
    ensures Abs(r as real) <= Abs(x) < Abs(r as real) + 1.0
    ensures r != 0 ==> (r > 0 <==> x > 0.0)
  {
    if x >= 0.0 then x.Floor else -((-x).Floor)
  }

  function Max(a: real, b: real): (r: real)
    ensures r >= a && r >= b && (r == a || r == b)
  {
    if a >= b then a else b
  }
}
