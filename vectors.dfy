/** Vectors in the plane (vector2D.js). */
module Vectors {
  import opened Host

  /** The coordinates of a vector, as a value. */
  datatype Vec = Vec(x: real, y: real)
  {
    /** `this.difference(other)` is `other - this`: the vector leading from this to other. */
    function Difference(other: Vec): (r: Vec)
      ensures x + r.x == other.x && y + r.y == other.y
    {
      Vec(other.x - x, other.y - y)
    }

    /** `x * x + y * y`, the square of the length. */
    function SquaredLength(): (s: real)
      ensures 0.0 <= s
    {
      SquareNonNegative(x);
      SquareNonNegative(y);
      Square(x) + Square(y)
    }

    /** `abs()`: the Euclidean length, `Math.sqrt(x * x + y * y)`. */
    function Abs(m: MathLib): (r: real)
      ensures Lawful(m) ==> 0.0 <= r && Square(r) == SquaredLength()
    {
      m.sqrt(SquaredLength())
    }
  }

  /** The difference of a vector with itself is the zero vector. */
  lemma DifferenceWithSelf(a: Vec)
    ensures a.Difference(a) == Vec(0.0, 0.0)
  {
  }

  /** Swapping the operands negates the difference. */
  lemma DifferenceAntisymmetric(a: Vec, b: Vec)
    ensures a.Difference(b) == Vec(-b.Difference(a).x, -b.Difference(a).y)
  {
  }

  /** Only the zero vector has length 0. */
  lemma AbsZeroIff(v: Vec, m: MathLib)
    requires Lawful(m)
    ensures v.Abs(m) == 0.0 <==> v == Vec(0.0, 0.0)
  {
    SquareZeroIff(v.Abs(m));
    SquareZeroIff(v.x);
    SquareZeroIff(v.y);
    SquareNonNegative(v.x);
    SquareNonNegative(v.y);
  }

  /** Comparing a length with a bound is comparing the squared length with the
      squared bound; with bound 2 this is the catch test of the game. */
  lemma AbsBelow(v: Vec, m: MathLib, bound: real)
    requires Lawful(m) && 0.0 <= bound
    ensures v.Abs(m) < bound <==> v.SquaredLength() < Square(bound)
  {
    var r := v.Abs(m);
    if r < bound {
      SquareLess(r, bound);
    } else {
      SquareAtMost(bound, r);
    }
  }

  /** A `ReversePacman.Vector2D` object. Its fields are public and are assigned
      in place by the sprite and the game, and one object can be shared. */
  class Vector2D {
    var x: real
    var y: real

    /** The constructor stores exactly the given coordinates. */
    constructor (x: real, y: real)
      ensures this.x == x && this.y == y
    {
      this.x := x;
      this.y := y;
    }

    function Value(): Vec
      reads this
    {
      Vec(x, y)
    }

    /** Allocates a new vector `other - this`; neither operand changes. */
    method Difference(other: Vector2D) returns (r: Vector2D)
      ensures fresh(r)
      ensures r.Value() == Value().Difference(other.Value())
    {
      r := new Vector2D(other.x - x, other.y - y);
    }

    function Abs(m: MathLib): (r: real)
      reads this
      ensures Lawful(m) ==> 0.0 <= r && Square(r) == Square(x) + Square(y)
    {
      Value().Abs(m)
    }
  }
}
