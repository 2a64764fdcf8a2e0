/** What the sprite logic takes from its host: the numbers of the `Math` object,
    the viewport size, and an optional value for "not yet set". */
module Host {

  /** `Math.PI`, written as the decimal that prints for the double. */
  const PI: real := 3.141592653589793

  /** `Math.sqrt`, `Math.cos`, `Math.sin` and `Math.atan2` as the host supplies them.
      They are parameters of the model: nothing about cos and sin is assumed. */
  datatype MathLib = MathLib(
    sqrt: real -> real,
    cos: real -> real,
    sin: real -> real,
    atan2: (real, real) -> real)

  /** The only laws the model relies on: `sqrt` is the non-negative square root
      on non-negative reals, and `atan2` returns an angle in [-PI, PI]. */
  ghost predicate Lawful(m: MathLib)
  {
    && (forall s :: 0.0 <= s ==> 0.0 <= m.sqrt(s) && Square(m.sqrt(s)) == s)
    && (forall y, x :: -PI <= m.atan2(y, x) <= PI)
  }

  /** `window.innerWidth` and `window.innerHeight` at the moment they are read. */
  datatype Viewport = Viewport(width: real, height: real)

  /** `a * a`. Squares are kept behind this name so that the facts below,
      proved once, are all the solver needs about them. */
  function Square(a: real): real
  {
    a * a
  }

  lemma MulPositive(a: real, b: real)
    requires 0.0 < a && 0.0 < b
    ensures 0.0 < a * b
  {
  }

  lemma SquareOfNegation(a: real)
    ensures Square(-a) == Square(a)
  {
  }

  lemma SquareNonNegative(a: real)
    ensures 0.0 <= Square(a)
  {
    if a > 0.0 {
      MulPositive(a, a);
    } else if a < 0.0 {
      MulPositive(-a, -a);
    }
  }

  lemma SquareLess(a: real, b: real)
    requires 0.0 <= a < b
    ensures Square(a) < Square(b)
  {
    calc {
      Square(a);
      a * a;
    <= a * b;
    <  b * b;
      Square(b);
    }
  }

  lemma SquareAtMost(a: real, b: real)
    requires 0.0 <= a <= b
    ensures Square(a) <= Square(b)
  {
    calc {
      Square(a);
      a * a;
    <= a * b;
    <= b * b;
      Square(b);
    }
  }

  lemma SquareZeroIff(a: real)
    ensures Square(a) == 0.0 <==> a == 0.0
  {
    if a > 0.0 {
      SquareLess(0.0, a);
    } else if a < 0.0 {
      SquareLess(0.0, -a);
      SquareOfNegation(a);
    }
  }

  /** A field that may still be `undefined`. */
  datatype Option<T> = None | Some(value: T)
}
