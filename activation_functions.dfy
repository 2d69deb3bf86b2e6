/** The piecewise-linear and rational activation functions and their gradients, on scalars,
    over exact reals. */
module ActivationFunctions {

  function Abs(x: real): (r: real)
    ensures r >= 0.0 && (r == x || r == -x)
  {
    if x < 0.0 then -x else x
  }

  /** `x` and `y` lie on the same linear piece of the functions below, which all switch
      at 0, the gradient taking the right-hand piece at 0 itself. */
  predicate SameSide(x: real, y: real) {
    (x < 0.0 && y < 0.0) || (x >= 0.0 && y >= 0.0)
  }

  // ---------------------------------------------------------------------------
  // Linear
  // ---------------------------------------------------------------------------

  /** `Linear()(x)` returns its input unchanged. */
  function Linear(x: real): (y: real)
    ensures y == x
  {
    x
  }

  // ---------------------------------------------------------------------------
  // BinaryStep
  // ---------------------------------------------------------------------------

  /** `BinaryStep()(x)`: a step from 0 to 1 at 0. */
  function BinaryStep(x: real): (y: real)
    ensures y == 0.0 || y == 1.0
    ensures y == 1.0 <==> x >= 0.0
  {
    if x >= 0.0 then 1.0 else 0.0
  }

  /** `BinaryStep().gradient(x)`: the slope of the step on either side. */
  function BinaryStepGradient(x: real): (g: real)
    ensures forall y :: SameSide(x, y) ==> BinaryStep(y) - BinaryStep(x) == g * (y - x)
  {
    0.0
  }

  // ---------------------------------------------------------------------------
  // ReLU
  // ---------------------------------------------------------------------------

  /** `ReLU()(x)` is `max(0, x)`. */
  function ReLU(x: real): (y: real)
    ensures y >= 0.0 && y >= x
    ensures y == 0.0 || y == x
    ensures x >= 0.0 ==> y == x
  {
    if x > 0.0 then x else 0.0
  }

  /** `ReLU().gradient(x)`: 0 left of 0, and 1 from 0 on. */
  function ReLUGradient(x: real): (g: real)
    ensures g == 0.0 || g == 1.0
    ensures g == 1.0 <==> x >= 0.0
    ensures forall y :: SameSide(x, y) ==> ReLU(y) - ReLU(x) == g * (y - x)
  {
    if x < 0.0 then 0.0 else 1.0
  }

  // ---------------------------------------------------------------------------
  // LeakyReLU and PReLU
  // ---------------------------------------------------------------------------

  /** The leak coefficient `LeakyReLU()` uses when none is given. */
  const LeakyReLUDefaultAlpha: real := 0.01

  /** `PReLU(alpha)(x)`: `alpha * x` left of 0, `x` from 0 on. It leaves non-negative inputs
      alone; with no leak it is ReLU and with a unit leak the identity; with a leak between 0
      and 1 it lies between the identity and ReLU. */
  function PReLU(alpha: real, x: real): (y: real)
    ensures x >= 0.0 ==> y == x
    ensures alpha == 0.0 ==> y == ReLU(x)
    ensures alpha == 1.0 ==> y == Linear(x)
    ensures 0.0 <= alpha <= 1.0 ==> x <= y <= ReLU(x)
  {
    if x < 0.0 then
      LeakBetween(alpha, x);
      alpha * x
    else x
  }

  /** `PReLU(alpha).gradient(x)`: the slope of the piece `x` lies on. */
  function PReLUGradient(alpha: real, x: real): (g: real)
    ensures g == 1.0 || g == alpha
    ensures x >= 0.0 ==> g == 1.0
    ensures forall y :: SameSide(x, y) ==> PReLU(alpha, y) - PReLU(alpha, x) == g * (y - x)
  {
    if x < 0.0 then alpha else 1.0
  }

  /** A leak between 0 and 1 maps a negative input between itself and 0. */
  lemma LeakBetween(alpha: real, x: real)
    ensures x < 0.0 && 0.0 <= alpha <= 1.0 ==> x <= alpha * x <= 0.0
  {
    if x < 0.0 && 0.0 <= alpha <= 1.0 {
      assert alpha * x - x == (1.0 - alpha) * (-x);
      NonNegativeProduct(1.0 - alpha, -x);
      NonNegativeProduct(alpha, -x);
    }
  }

  lemma NonNegativeProduct(a: real, b: real)
    requires a >= 0.0 && b >= 0.0
    ensures a * b >= 0.0
  {
  }

  /** `LeakyReLU(alpha)(x)`: tests `x <= 0` where PReLU tests `x < 0`, but both branches
      give 0 at 0, so the two functions agree everywhere. */
  function LeakyReLU(alpha: real, x: real): (y: real)
    ensures y == PReLU(alpha, x)
  {
    if x <= 0.0 then
      assert x == 0.0 ==> alpha * x == x;
      alpha * x
    else x
  }

  /** `LeakyReLU(alpha).gradient(x)`: the slope of the piece `x` lies on. */
  function LeakyReLUGradient(alpha: real, x: real): (g: real)
    ensures g == PReLUGradient(alpha, x)
    ensures forall y :: SameSide(x, y) ==> LeakyReLU(alpha, y) - LeakyReLU(alpha, x) == g * (y - x)
  {
    if x < 0.0 then alpha else 1.0
  }

  /** ReLU, LeakyReLU and PReLU are each their gradient times the input. */
  lemma PiecewiseLinearThroughZero(alpha: real, x: real)
    ensures ReLU(x) == ReLUGradient(x) * x
    ensures PReLU(alpha, x) == PReLUGradient(alpha, x) * x
    ensures LeakyReLU(alpha, x) == LeakyReLUGradient(alpha, x) * x
  {
  }

  /** With the default coefficient, LeakyReLU divides negative inputs by 100. */
  lemma LeakyReLUDefault(x: real)
    ensures x < 0.0 ==> LeakyReLU(LeakyReLUDefaultAlpha, x) == x / 100.0
    ensures x >= 0.0 ==> LeakyReLU(LeakyReLUDefaultAlpha, x) == x
  {
  }

  // ---------------------------------------------------------------------------
  // SoftSign
  // ---------------------------------------------------------------------------

  /** `SoftSign()(x)` is `x / (1 + |x|)`: strictly between -1 and 1, with the sign of `x`. */
  function SoftSign(x: real): (y: real)
    ensures -1.0 < y < 1.0
    ensures (y > 0.0 <==> x > 0.0) && (y < 0.0 <==> x < 0.0)
  {
    SignedQuotient(x, 1.0 + Abs(x));
    x / (1.0 + Abs(x))
  }

  /** `x / d` for `d = 1 + |x|` is strictly between -1 and 1, with the sign of `x`. */
  lemma SignedQuotient(x: real, d: real)
    requires d == 1.0 + Abs(x)
    ensures -1.0 < x / d < 1.0
    ensures (x / d > 0.0 <==> x > 0.0) && (x / d < 0.0 <==> x < 0.0)
  {
    var q := x / d;
    assert q * d == x;
    if x >= 0.0 {
      assert q * d < d;
    } else {
      assert q * d > -d;
    }
  }

  /** `SoftSign().gradient(x)` is `1 / (1 + |x|) ** 2`: positive, at most 1, and 1 exactly at 0. */
  function SoftSignGradient(x: real): (g: real)
    ensures 0.0 < g <= 1.0
    ensures g == 1.0 <==> x == 0.0
  {
    var d := 1.0 + Abs(x);
    assert d * d - d == d * (d - 1.0);
    assert d * d >= d;
    assert d * d == 1.0 <==> d == 1.0;
    var g := 1.0 / (d * d);
    assert g * (d * d) == 1.0;
    g
  }

  /** SoftSign is odd. */
  lemma SoftSignOdd(x: real)
    ensures SoftSign(-x) == -SoftSign(x)
  {
    assert Abs(-x) == Abs(x);
  }

  /** The slope of SoftSign between two inputs of one sign. */
  function SoftSignSlope(x: real, y: real): real {
    1.0 / ((1.0 + Abs(x)) * (1.0 + Abs(y)))
  }

  /** Between two inputs of one sign SoftSign rises by the difference times
      `1 / ((1 + |x|) (1 + |y|))`; as `y` tends to `x` that factor becomes the gradient. */
  lemma SoftSignSecant(x: real, y: real)
    requires (x >= 0.0 && y >= 0.0) || (x <= 0.0 && y <= 0.0)
    ensures SoftSign(y) - SoftSign(x) == (y - x) * SoftSignSlope(x, y)
    ensures SoftSignSlope(x, x) == SoftSignGradient(x)
  {
    var dx, dy := 1.0 + Abs(x), 1.0 + Abs(y);
    CrossDifference(x, y);
    DivDifference(x, y, dx, dy);
    SecantFromQuotients(x, y, dx, dy);
  }

  lemma SecantFromQuotients(x: real, y: real, dx: real, dy: real)
    requires dx == 1.0 + Abs(x) && dy == 1.0 + Abs(y)
    requires y / dy - x / dx == (y - x) * (1.0 / (dx * dy))
    ensures SoftSign(y) - SoftSign(x) == (y - x) * SoftSignSlope(x, y)
  {
    SoftSignValue(y, dy);
    SoftSignValue(x, dx);
    SoftSignSlopeValue(x, y, dx, dy);
    SubstituteDifference(SoftSign(y), SoftSign(x), SoftSignSlope(x, y), y / dy, x / dx, 1.0 / (dx * dy), y - x);
  }

  lemma SoftSignSlopeValue(x: real, y: real, dx: real, dy: real)
    requires dx == 1.0 + Abs(x) && dy == 1.0 + Abs(y)
    ensures SoftSignSlope(x, y) == 1.0 / (dx * dy)
  {
  }

  lemma SoftSignValue(x: real, d: real)
    requires d == 1.0 + Abs(x)
    ensures SoftSign(x) == x / d
  {
  }

  lemma SubstituteDifference(a: real, b: real, c: real, p: real, q: real, r: real, m: real)
    requires a == p && b == q && c == r && p - q == m * r
    ensures a - b == m * c
  {
  }

  lemma CrossDifference(x: real, y: real)
    requires (x >= 0.0 && y >= 0.0) || (x <= 0.0 && y <= 0.0)
    ensures y * (1.0 + Abs(x)) - x * (1.0 + Abs(y)) == y - x
  {
    if x >= 0.0 && y >= 0.0 {
      assert y * (1.0 + x) == y + y * x;
      assert x * (1.0 + y) == x + x * y;
    } else {
      assert Abs(x) == -x && Abs(y) == -y;
      assert y * (1.0 - x) == y - y * x;
      assert x * (1.0 - y) == x - x * y;
    }
  }

  lemma DivDifference(x: real, y: real, dx: real, dy: real)
    requires dx > 0.0 && dy > 0.0
    requires y * dx - x * dy == y - x
    ensures y / dy - x / dx == (y - x) * (1.0 / (dx * dy))
  {
    var p := dx * dy;
    assert p > 0.0;
    var q := 1.0 / p;
    assert q * p == 1.0;
    assert y / dy == (y * dx) * q by {
      assert (y * dx) * q * dy == y * (q * p);
    }
    assert x / dx == (x * dy) * q by {
      assert (x * dy) * q * dx == x * (q * p);
    }
    assert (y * dx) * q - (x * dy) * q == (y * dx - x * dy) * q;
  }

  lemma PositiveProduct(a: real, b: real)
    requires a > 0.0 && b > 0.0
    ensures a * b > 0.0
  {
  }

  lemma PositiveReciprocal(p: real)
    requires p > 0.0
    ensures 1.0 / p > 0.0
  {
  }

  lemma BelowByPositive(a: real, b: real, c: real)
    requires b - a == c && c > 0.0
    ensures a < b
  {
  }

  /** SoftSign is strictly increasing. */
  lemma SoftSignIncreasing(x: real, y: real)
    requires x < y
    ensures SoftSign(x) < SoftSign(y)
  {
    if (x >= 0.0 && y >= 0.0) || (x <= 0.0 && y <= 0.0) {
      SoftSignSecant(x, y);
      var p := (1.0 + Abs(x)) * (1.0 + Abs(y));
      PositiveProduct(1.0 + Abs(x), 1.0 + Abs(y));
      var s := SoftSignSlope(x, y);
      assert s == 1.0 / p;
      PositiveReciprocal(p);
      var d := y - x;
      PositiveProduct(d, s);
      BelowByPositive(SoftSign(x), SoftSign(y), d * s);
    }
  }
}
