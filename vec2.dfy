/** Two-component vectors over the reals, standing in for the engine's `Vec2`
    (a pair of f32). Floating-point rounding is not modelled. */
module Vectors {

  datatype Vec2 = Vec2(x: real, y: real) {

    /** Componentwise product, the `*` of two vectors. */
    function Mul(other: Vec2): Vec2 {
      Vec2(x * other.x, y * other.y)
    }

    /** Componentwise sum, the `+` of two vectors. */
    function Add(other: Vec2): Vec2 {
      Vec2(x + other.x, y + other.y)
    }

    /** Multiplication by a scalar, `k * v`. */
    function Times(k: real): Vec2 {
      Vec2(k * x, k * y)
    }

    /** The negated vector `-v`. */
    function Neg(): Vec2 {
      Vec2(-x, -y)
    }

    /** The squared Euclidean length, `x² + y²`. */
    function LengthSquared(): real {
      x * x + y * y
    }
  }

  function Zero(): Vec2 { Vec2(0.0, 0.0) }

  /** A square is never negative. */
  lemma SquareNonnegative(a: real)
    ensures a * a >= 0.0
  {
    if a < 0.0 {
      assert a * a == (-a) * (-a);
    }
  }

  /** The square of a non-zero number is positive. */
  lemma SquarePositive(a: real)
    requires a != 0.0
    ensures a * a > 0.0
  {
    if a < 0.0 {
      assert a * a == (-a) * (-a);
    }
  }

  /** The squared length is never negative. */
  lemma LengthSquaredNonnegative(v: Vec2)
    ensures v.LengthSquared() >= 0.0
  {
    var a, b := v.x, v.y;
    SquareNonnegative(a);
    SquareNonnegative(b);
    calc {
      v.LengthSquared();
    ==
      a * a + b * b;
    >=
      0.0;
    }
  }

  /** The squared length is positive away from the origin. */
  lemma LengthSquaredPositive(v: Vec2)
    requires v != Zero()
    ensures v.LengthSquared() > 0.0
  {
    var a, b := v.x, v.y;
    SquareNonnegative(a);
    SquareNonnegative(b);
    if a != 0.0 {
      SquarePositive(a);
    } else {
      SquarePositive(b);
    }
    calc {
      v.LengthSquared();
    ==
      a * a + b * b;
    >
      0.0;
    }
  }

  /** The squared length vanishes exactly at the origin. */
  lemma LengthSquaredZeroIff(v: Vec2)
    ensures v.LengthSquared() == 0.0 <==> v == Zero()
  {
    if v != Zero() {
      LengthSquaredPositive(v);
    }
  }
}
