/** Numbers as numpy handles them in the converter, without rounding:
    a float64 is a real or NaN, a complex128 a pair of reals, and 3x3 real
    and complex matrices are sequences of rows.  Infinities and floating-point
    rounding are not modelled. */
module Numerics {

  /** `np.pi`, written as its float64 literal. */
  const Pi: real := 3.141592653589793

  /** The threshold below which a squared wavevector length counts as zero
      (`1e-10` at elkoa/utils/convert.py:67 and :131). */
  const ZeroThreshold: real := 0.0000000001

  /** A float64 entry of an array: a finite value or NaN. */
  datatype Float = Fin(v: real) | NaN

  /** A complex128 entry of an array; `np.isnan` holds when either part is NaN. */
  datatype CFloat = CFloat(re: Float, im: Float) {
    predicate IsNaN() { re.NaN? || im.NaN? }
  }

  datatype Complex = Complex(re: real, im: real)

  const Zero: Complex := Complex(0.0, 0.0)
  const One: Complex := Complex(1.0, 0.0)
  /** The imaginary unit, Python's `1j`. */
  const J: Complex := Complex(0.0, 1.0)

  function Of(x: real): Complex { Complex(x, 0.0) }

  function Add(a: Complex, b: Complex): Complex { Complex(a.re + b.re, a.im + b.im) }

  function Sub(a: Complex, b: Complex): Complex { Complex(a.re - b.re, a.im - b.im) }

  function Mul(a: Complex, b: Complex): Complex
  {
    Complex(a.re * b.re - a.im * b.im, a.re * b.im + a.im * b.re)
  }

  /** The reciprocal `1 / z`; numpy raises on a zero divisor (np.seterr(all="raise")). */
  function Inv(z: Complex): (r: Complex)
    requires z != Zero
    ensures Mul(z, r) == One && Mul(r, z) == One
    ensures r != Zero
  {
    var n := Modulus2(z);
    NormPositive(z);
    var r := Complex(z.re / n, -z.im / n);
    ReciprocalParts(z.re, z.im, n);
    r
  }

  /** The squared modulus |z|^2. */
  function Modulus2(z: Complex): real
  {
    z.re * z.re + z.im * z.im
  }

  /** A non-zero complex number has a positive squared modulus. */
  lemma NormPositive(z: Complex)
    requires z != Zero
    ensures Modulus2(z) > 0.0
  {
    // the equation and the inequality are separate steps: the solver does
    // not combine a definition of a square with a strict bound on it
    calc {
      Modulus2(z);
    ==
      z.re * z.re + z.im * z.im;
    >  { SumPositive(z.re, z.im); }
      0.0;
    }
  }

  /** The parts of (x + iy)(x - iy)/n for n = x^2 + y^2. */
  lemma ReciprocalParts(x: real, y: real, n: real)
    requires n != 0.0 && n == x * x + y * y
    ensures x * (x / n) - y * (-y / n) == 1.0
    ensures x * (-y / n) + y * (x / n) == 0.0
    ensures (x / n) * x - (-y / n) * y == 1.0
    ensures (x / n) * y + (-y / n) * x == 0.0
  {
    calc {
      x * (x / n) - y * (-y / n);
    ==
      (x * x + y * y) / n;
    ==
      n / n;
    ==
      1.0;
    }
  }

  lemma SumPositive(x: real, y: real)
    requires x != 0.0 || y != 0.0
    ensures x * x + y * y > 0.0
  {
    SquareNonNegative(x);
    SquareNonNegative(y);
    if x != 0.0 { SquarePositive(x); } else { SquarePositive(y); }
  }

  /** Complex division `a / b`. */
  function Div(a: Complex, b: Complex): (r: Complex)
    requires b != Zero
    ensures Mul(r, b) == a
  {
    var r := Mul(a, Inv(b));
    MulAssoc(a, Inv(b), b);
    r
  }

  /** Multiplying by i turns no non-zero number into zero. */
  lemma MulJNonZero(w: Complex)
    requires w != Zero
    ensures Mul(J, w) != Zero
  {
  }

  /** a / b and b / a are reciprocal. */
  lemma DivReciprocal(a: Complex, b: Complex)
    requires a != Zero && b != Zero
    ensures Mul(Div(a, b), Div(b, a)) == One
  {
    var ia, ib := Inv(a), Inv(b);
    calc {
      Mul(Div(a, b), Div(b, a));
    ==
      Mul(Mul(a, ib), Mul(b, ia));
    ==  { MulAssoc(a, ib, Mul(b, ia)); }
      Mul(a, Mul(ib, Mul(b, ia)));
    ==  { MulAssoc(ib, b, ia); }
      Mul(a, Mul(Mul(ib, b), ia));
    ==
      Mul(a, Mul(One, ia));
    ==
      Mul(a, ia);
    ==
      One;
    }
  }

  /** numpy's ordering of complex128 values: by real part, then imaginary part. */
  predicate Less(a: Complex, b: Complex)
  {
    a.re < b.re || (a.re == b.re && a.im < b.im)
  }

  function ToCFloat(z: Complex): CFloat { CFloat(Fin(z.re), Fin(z.im)) }

  function ToComplex(c: CFloat): (z: Complex)
    requires !c.IsNaN()
    ensures ToCFloat(z) == c
  {
    Complex(c.re.v, c.im.v)
  }

  lemma SquareNonNegative(x: real)
    ensures x * x >= 0.0
  {
  }

  lemma SquarePositive(x: real)
    requires x != 0.0
    ensures x * x > 0.0
  {
  }

  lemma MulAssoc(a: Complex, b: Complex, c: Complex)
    ensures Mul(Mul(a, b), c) == Mul(a, Mul(b, c))
  {
  }

  lemma MulComm(a: Complex, b: Complex)
    ensures Mul(a, b) == Mul(b, a)
  {
  }

  lemma MulDistL(a: Complex, b: Complex, c: Complex)
    ensures Mul(a, Add(b, c)) == Add(Mul(a, b), Mul(a, c))
  {
  }

  lemma MulDistR(a: Complex, b: Complex, c: Complex)
    ensures Mul(Add(a, b), c) == Add(Mul(a, c), Mul(b, c))
  {
  }

  // ---------------------------------------------------------------------
  // Square roots.  numpy's `sqrt` is foreign code; the model receives it as
  // a function `sqrt: real -> real` and proves what depends on its accuracy
  // under the hypothesis IsSqrt.

  ghost predicate IsSqrt(sqrt: real -> real)
  {
    forall x :: x >= 0.0 ==> sqrt(x) >= 0.0 && sqrt(x) * sqrt(x) == x
  }

  /** Non-negative numbers with equal squares are equal. */
  lemma SquaresEqual(x: real, y: real)
    requires x >= 0.0 && y >= 0.0 && x * x == y * y
    ensures x == y
  {
    assert (x - y) * (x + y) == 0.0;
    if x + y == 0.0 {
    } else {
      assert x - y == 0.0;
    }
  }

  /** A non-negative number is at least any number whose square does not exceed its own. */
  lemma SquareBound(m: real, a: real)
    requires m >= 0.0 && m * m >= a * a
    ensures m >= a && m >= -a
  {
    assert m < a ==> m * m <= m * a < a * a;
    assert m < -a ==> m * m <= m * (-a) < (-a) * (-a);
  }

  /** `np.abs` of a complex value: the square root of its squared modulus. */
  function Abs(sqrt: real -> real, z: Complex): real
  {
    sqrt(z.re * z.re + z.im * z.im)
  }

  /** sqrt((|z| + Re z) / 2), the modulus of the real part of a root of z. */
  function HalfRootRe(sqrt: real -> real, z: Complex): real
  {
    sqrt(0.5 * (Abs(sqrt, z) + z.re))
  }

  /** sqrt((|z| - Re z) / 2), the modulus of the imaginary part of a root of z. */
  function HalfRootIm(sqrt: real -> real, z: Complex): real
  {
    sqrt(0.5 * (Abs(sqrt, z) - z.re))
  }

  /** numpy's principal complex square root, built from the real one: the
      real part is never negative and the imaginary part has the sign of
      the argument's imaginary part. */
  function CSqrt(sqrt: real -> real, z: Complex): Complex
  {
    Complex(HalfRootRe(sqrt, z), if z.im < 0.0 then -HalfRootIm(sqrt, z) else HalfRootIm(sqrt, z))
  }

  lemma AbsSquare(sqrt: real -> real, z: Complex)
    requires IsSqrt(sqrt)
    ensures Abs(sqrt, z) >= 0.0
    ensures Abs(sqrt, z) * Abs(sqrt, z) == z.re * z.re + z.im * z.im
  {
    SquareNonNegative(z.re);
    SquareNonNegative(z.im);
  }

  /** |z| bounds the real part from both sides. */
  lemma AbsBound(sqrt: real -> real, z: Complex)
    requires IsSqrt(sqrt)
    ensures Abs(sqrt, z) >= z.re && Abs(sqrt, z) >= -z.re
  {
    AbsSquare(sqrt, z);
    SquareNonNegative(z.im);
    SquareBound(Abs(sqrt, z), z.re);
  }

  /** The two half roots are non-negative, square to the half-sum and
      half-difference of |z| and Re z, and twice their product is |Im z|. */
  lemma HalfRoots(sqrt: real -> real, z: Complex)
    requires IsSqrt(sqrt)
    ensures HalfRootRe(sqrt, z) >= 0.0 && HalfRootIm(sqrt, z) >= 0.0
    ensures HalfRootRe(sqrt, z) * HalfRootRe(sqrt, z) == 0.5 * (Abs(sqrt, z) + z.re)
    ensures HalfRootIm(sqrt, z) * HalfRootIm(sqrt, z) == 0.5 * (Abs(sqrt, z) - z.re)
    ensures 2.0 * HalfRootRe(sqrt, z) * HalfRootIm(sqrt, z) == (if z.im < 0.0 then -z.im else z.im)
  {
    AbsSquare(sqrt, z);
    AbsBound(sqrt, z);
    var m := Abs(sqrt, z);
    var a := HalfRootRe(sqrt, z);
    var b := HalfRootIm(sqrt, z);
    assert a >= 0.0 && a * a == 0.5 * (m + z.re);
    assert b >= 0.0 && b * b == 0.5 * (m - z.re);
    var ab := 2.0 * a * b;
    var absIm := if z.im < 0.0 then -z.im else z.im;
    calc {
      ab * ab;
      4.0 * (a * a) * (b * b);
      4.0 * (0.5 * (m + z.re)) * (0.5 * (m - z.re));
      m * m - z.re * z.re;
      absIm * absIm;
    }
    assert ab >= 0.0;
    SquaresEqual(ab, absIm);
  }

  /** The principal root squares back to its argument and has a non-negative real part. */
  lemma CSqrtSquares(sqrt: real -> real, z: Complex)
    requires IsSqrt(sqrt)
    ensures Mul(CSqrt(sqrt, z), CSqrt(sqrt, z)) == z
    ensures CSqrt(sqrt, z).re >= 0.0
  {
    HalfRoots(sqrt, z);
  }

  // ---------------------------------------------------------------------
  // 3-vectors and 3x3 matrices.

  type Vec3 = v: seq<real> | |v| == 3 witness [0.0, 0.0, 0.0]

  type RMat = m: seq<seq<real>> | |m| == 3 && forall i | 0 <= i < 3 :: |m[i]| == 3
    witness [[0.0, 0.0, 0.0], [0.0, 0.0, 0.0], [0.0, 0.0, 0.0]]

  type CMat = m: seq<seq<Complex>> | |m| == 3 && forall i | 0 <= i < 3 :: |m[i]| == 3
    witness [[Zero, Zero, Zero], [Zero, Zero, Zero], [Zero, Zero, Zero]]

  /** The squared euclidean norm, `np.linalg.norm(q) ** 2`. */
  function Norm2(q: Vec3): real
  {
    q[0] * q[0] + q[1] * q[1] + q[2] * q[2]
  }

  lemma Norm2NonNegative(q: Vec3)
    ensures Norm2(q) >= 0.0
  {
  }

  function RIdentity(): RMat
  {
    seq(3, i requires 0 <= i < 3 => seq(3, j requires 0 <= j < 3 => if i == j then 1.0 else 0.0))
  }

  function RZero(): RMat
  {
    seq(3, i requires 0 <= i < 3 => seq(3, j requires 0 <= j < 3 => 0.0))
  }

  function RAdd(a: RMat, b: RMat): RMat
  {
    seq(3, i requires 0 <= i < 3 => seq(3, j requires 0 <= j < 3 => a[i][j] + b[i][j]))
  }

  function RSub(a: RMat, b: RMat): RMat
  {
    seq(3, i requires 0 <= i < 3 => seq(3, j requires 0 <= j < 3 => a[i][j] - b[i][j]))
  }

  /** Entry (i, j) of the matrix product a * b. */
  function RDot(a: RMat, b: RMat, i: int, j: int): real
    requires 0 <= i < 3 && 0 <= j < 3
  {
    a[i][0] * b[0][j] + a[i][1] * b[1][j] + a[i][2] * b[2][j]
  }

  function RMul(a: RMat, b: RMat): RMat
  {
    seq(3, i requires 0 <= i < 3 => seq(3, j requires 0 <= j < 3 => RDot(a, b, i, j)))
  }

  predicate RSymmetric(a: RMat)
  {
    forall i, j | 0 <= i < 3 && 0 <= j < 3 :: a[i][j] == a[j][i]
  }

  /** a * (I - b) == a - a * b */
  lemma RMulIdentityMinus(a: RMat, b: RMat)
    ensures RMul(a, RSub(RIdentity(), b)) == RSub(a, RMul(a, b))
  {
    RMatEq(RMul(a, RSub(RIdentity(), b)), RSub(a, RMul(a, b)));
  }

  /** (I - b) * a == a - b * a */
  lemma RIdentityMinusMul(b: RMat, a: RMat)
    ensures RMul(RSub(RIdentity(), b), a) == RSub(a, RMul(b, a))
  {
    RMatEq(RMul(RSub(RIdentity(), b), a), RSub(a, RMul(b, a)));
  }

  /** Real matrices with equal entries are equal. */
  lemma RMatEq(a: RMat, b: RMat)
    requires forall i, j | 0 <= i < 3 && 0 <= j < 3 :: a[i][j] == b[i][j]
    ensures a == b
  {
    assert forall i | 0 <= i < 3 :: a[i] == b[i];
  }

  function CId(): CMat
  {
    seq(3, i requires 0 <= i < 3 => seq(3, j requires 0 <= j < 3 => if i == j then One else Zero))
  }

  function CAdd(a: CMat, b: CMat): CMat
  {
    seq(3, i requires 0 <= i < 3 => seq(3, j requires 0 <= j < 3 => Add(a[i][j], b[i][j])))
  }

  function CSub(a: CMat, b: CMat): CMat
  {
    seq(3, i requires 0 <= i < 3 => seq(3, j requires 0 <= j < 3 => Sub(a[i][j], b[i][j])))
  }

  /** A complex scalar times a matrix. */
  function CScale(s: Complex, a: CMat): CMat
  {
    seq(3, i requires 0 <= i < 3 => seq(3, j requires 0 <= j < 3 => Mul(s, a[i][j])))
  }

  /** A real matrix as a complex one (numpy's upcast from float64 to complex128). */
  function Lift(a: RMat): CMat
  {
    seq(3, i requires 0 <= i < 3 => seq(3, j requires 0 <= j < 3 => Of(a[i][j])))
  }

  /** Complex matrices with equal entries are equal. */
  lemma CMatEq(a: CMat, b: CMat)
    requires forall i, j | 0 <= i < 3 && 0 <= j < 3 :: a[i][j] == b[i][j]
    ensures a == b
  {
    assert forall i | 0 <= i < 3 :: a[i] == b[i];
  }

  function CDot(a: CMat, b: CMat, i: int, j: int): Complex
    requires 0 <= i < 3 && 0 <= j < 3
  {
    Add(Add(Mul(a[i][0], b[0][j]), Mul(a[i][1], b[1][j])), Mul(a[i][2], b[2][j]))
  }

  /** The matrix product, `np.dot` of two 3x3 arrays. */
  function CMul(a: CMat, b: CMat): CMat
  {
    seq(3, i requires 0 <= i < 3 => seq(3, j requires 0 <= j < 3 => CDot(a, b, i, j)))
  }

  lemma CDotAssoc(a: CMat, b: CMat, c: CMat, i: int, j: int)
    requires 0 <= i < 3 && 0 <= j < 3
    ensures CDot(CMul(a, b), c, i, j) == CDot(a, CMul(b, c), i, j)
  {
    var ab := CMul(a, b);
    var bc := CMul(b, c);
    forall l | 0 <= l < 3
      ensures Mul(ab[i][l], c[l][j])
           == Add(Add(Mul(a[i][0], Mul(b[0][l], c[l][j])), Mul(a[i][1], Mul(b[1][l], c[l][j]))),
                  Mul(a[i][2], Mul(b[2][l], c[l][j])))
    {
      MulDistR(Add(Mul(a[i][0], b[0][l]), Mul(a[i][1], b[1][l])), Mul(a[i][2], b[2][l]), c[l][j]);
      MulDistR(Mul(a[i][0], b[0][l]), Mul(a[i][1], b[1][l]), c[l][j]);
      MulAssoc(a[i][0], b[0][l], c[l][j]);
      MulAssoc(a[i][1], b[1][l], c[l][j]);
      MulAssoc(a[i][2], b[2][l], c[l][j]);
    }
    forall k | 0 <= k < 3
      ensures Mul(a[i][k], bc[k][j])
           == Add(Add(Mul(a[i][k], Mul(b[k][0], c[0][j])), Mul(a[i][k], Mul(b[k][1], c[1][j]))),
                  Mul(a[i][k], Mul(b[k][2], c[2][j])))
    {
      MulDistL(a[i][k], Add(Mul(b[k][0], c[0][j]), Mul(b[k][1], c[1][j])), Mul(b[k][2], c[2][j]));
      MulDistL(a[i][k], Mul(b[k][0], c[0][j]), Mul(b[k][1], c[1][j]));
    }
  }

  /** Matrix multiplication is associative. */
  lemma {:induction false} CMulAssoc(a: CMat, b: CMat, c: CMat)
    ensures CMul(CMul(a, b), c) == CMul(a, CMul(b, c))
  {
    forall i, j | 0 <= i < 3 && 0 <= j < 3
      ensures CMul(CMul(a, b), c)[i][j] == CMul(a, CMul(b, c))[i][j]
    {
      CDotAssoc(a, b, c, i, j);
    }
    CMatEq(CMul(CMul(a, b), c), CMul(a, CMul(b, c)));
  }

  lemma CMulIdentityLeft(a: CMat)
    ensures CMul(CId(), a) == a
  {
    CMatEq(CMul(CId(), a), a);
  }

  /** A scalar factor moves out of the right operand of a product. */
  lemma CMulScaleRight(a: CMat, s: Complex, b: CMat)
    ensures CMul(a, CScale(s, b)) == CScale(s, CMul(a, b))
  {
    forall i, j | 0 <= i < 3 && 0 <= j < 3
      ensures CMul(a, CScale(s, b))[i][j] == CScale(s, CMul(a, b))[i][j]
    {
      var x := CScale(s, b);
      MulAssoc(a[i][0], s, b[0][j]); MulComm(a[i][0], s); MulAssoc(s, a[i][0], b[0][j]);
      MulAssoc(a[i][1], s, b[1][j]); MulComm(a[i][1], s); MulAssoc(s, a[i][1], b[1][j]);
      MulAssoc(a[i][2], s, b[2][j]); MulComm(a[i][2], s); MulAssoc(s, a[i][2], b[2][j]);
      MulDistL(s, Add(Mul(a[i][0], b[0][j]), Mul(a[i][1], b[1][j])), Mul(a[i][2], b[2][j]));
      MulDistL(s, Mul(a[i][0], b[0][j]), Mul(a[i][1], b[1][j]));
    }
    CMatEq(CMul(a, CScale(s, b)), CScale(s, CMul(a, b)));
  }

  lemma CScaleScale(s: Complex, t: Complex, a: CMat)
    ensures CScale(s, CScale(t, a)) == CScale(Mul(s, t), a)
  {
    forall i, j | 0 <= i < 3 && 0 <= j < 3
      ensures Mul(s, Mul(t, a[i][j])) == Mul(Mul(s, t), a[i][j])
    {
      MulAssoc(s, t, a[i][j]);
    }
    CMatEq(CScale(s, CScale(t, a)), CScale(Mul(s, t), a));
  }

  lemma CScaleOne(a: CMat)
    ensures CScale(One, a) == a
  {
    CMatEq(CScale(One, a), a);
  }

  function CZero(): CMat
  {
    seq(3, i requires 0 <= i < 3 => seq(3, j requires 0 <= j < 3 => Zero))
  }

  lemma CAddZero(a: CMat)
    ensures CAdd(a, CZero()) == a && CAdd(CZero(), a) == a
  {
    CMatEq(CAdd(a, CZero()), a);
    CMatEq(CAdd(CZero(), a), a);
  }

  lemma CMulZeroLeft(a: CMat)
    ensures CMul(CZero(), a) == CZero()
  {
    CMatEq(CMul(CZero(), a), CZero());
  }

  lemma CScaleZero(s: Complex)
    ensures CScale(s, CZero()) == CZero()
  {
    CMatEq(CScale(s, CZero()), CZero());
  }

  /** I - (I - a) == a */
  lemma CSubSub(a: CMat)
    ensures CSub(CId(), CSub(CId(), a)) == a
  {
    CMatEq(CSub(CId(), CSub(CId(), a)), a);
  }

  lemma CMulAddLeft(a: CMat, b: CMat, c: CMat)
    ensures CMul(CAdd(a, b), c) == CAdd(CMul(a, c), CMul(b, c))
  {
    forall i, j | 0 <= i < 3 && 0 <= j < 3
      ensures CMul(CAdd(a, b), c)[i][j] == CAdd(CMul(a, c), CMul(b, c))[i][j]
    {
      MulDistR(a[i][0], b[i][0], c[0][j]);
      MulDistR(a[i][1], b[i][1], c[1][j]);
      MulDistR(a[i][2], b[i][2], c[2][j]);
    }
    CMatEq(CMul(CAdd(a, b), c), CAdd(CMul(a, c), CMul(b, c)));
  }

  lemma CMulAddRight(a: CMat, b: CMat, c: CMat)
    ensures CMul(a, CAdd(b, c)) == CAdd(CMul(a, b), CMul(a, c))
  {
    forall i, j | 0 <= i < 3 && 0 <= j < 3
      ensures CMul(a, CAdd(b, c))[i][j] == CAdd(CMul(a, b), CMul(a, c))[i][j]
    {
      MulDistL(a[i][0], b[0][j], c[0][j]);
      MulDistL(a[i][1], b[1][j], c[1][j]);
      MulDistL(a[i][2], b[2][j], c[2][j]);
    }
    CMatEq(CMul(a, CAdd(b, c)), CAdd(CMul(a, b), CMul(a, c)));
  }

  /** A scalar factor moves out of the left operand of a product. */
  lemma CMulScaleLeft(s: Complex, a: CMat, b: CMat)
    ensures CMul(CScale(s, a), b) == CScale(s, CMul(a, b))
  {
    forall i, j | 0 <= i < 3 && 0 <= j < 3
      ensures CMul(CScale(s, a), b)[i][j] == CScale(s, CMul(a, b))[i][j]
    {
      MulAssoc(s, a[i][0], b[0][j]);
      MulAssoc(s, a[i][1], b[1][j]);
      MulAssoc(s, a[i][2], b[2][j]);
      MulDistL(s, Add(Mul(a[i][0], b[0][j]), Mul(a[i][1], b[1][j])), Mul(a[i][2], b[2][j]));
      MulDistL(s, Mul(a[i][0], b[0][j]), Mul(a[i][1], b[1][j]));
    }
    CMatEq(CMul(CScale(s, a), b), CScale(s, CMul(a, b)));
  }

  /** Lifting commutes with products, sums and the constant matrices. */
  lemma LiftMul(a: RMat, b: RMat)
    ensures CMul(Lift(a), Lift(b)) == Lift(RMul(a, b))
  {
    CMatEq(CMul(Lift(a), Lift(b)), Lift(RMul(a, b)));
  }

  lemma LiftAdd(a: RMat, b: RMat)
    ensures CAdd(Lift(a), Lift(b)) == Lift(RAdd(a, b))
  {
    CMatEq(CAdd(Lift(a), Lift(b)), Lift(RAdd(a, b)));
  }

  lemma LiftConstants()
    ensures Lift(RZero()) == CZero() && Lift(RIdentity()) == CId()
  {
    CMatEq(Lift(RZero()), CZero());
    CMatEq(Lift(RIdentity()), CId());
  }

  /** If A and B are complementary orthogonal projectors (A + B = I,
      A A = A, B B = B, A B = B A = 0) and s t = 1, then A + s B and
      A + t B are inverse to each other. */
  lemma {:induction false} CombinationInverse(a: RMat, b: RMat, s: Complex, t: Complex)
    requires RAdd(a, b) == RIdentity()
    requires RMul(a, a) == a && RMul(b, b) == b
    requires RMul(a, b) == RZero() && RMul(b, a) == RZero()
    requires Mul(s, t) == One
    ensures CMul(CAdd(Lift(a), CScale(s, Lift(b))), CAdd(Lift(a), CScale(t, Lift(b)))) == CId()
  {
    var la, lb := Lift(a), Lift(b);
    var y := CAdd(la, CScale(t, lb));
    LiftConstants();
    LiftMul(a, a); LiftMul(a, b); LiftMul(b, a); LiftMul(b, b);
    CScaleZero(t);
    CAddZero(la);
    CAddZero(CScale(t, lb));
    // A (A + t B) == A A + t A B == A
    CMulAddRight(la, la, CScale(t, lb));
    CMulScaleRight(la, t, lb);
    assert CMul(la, y) == la;
    // (s B)(A + t B) == s (B A + t B B) == s t B == B
    CMulScaleLeft(s, lb, y);
    CMulAddRight(lb, la, CScale(t, lb));
    CMulScaleRight(lb, t, lb);
    CScaleScale(s, t, lb);
    CScaleOne(lb);
    assert CMul(CScale(s, lb), y) == lb;
    CMulAddLeft(la, CScale(s, lb), y);
    LiftAdd(a, b);
  }

  /** The transpose, numpy's `a.T`. */
  function CTranspose(a: CMat): (t: CMat)
    ensures forall i, j | 0 <= i < 3 && 0 <= j < 3 :: t[i][j] == a[j][i]
  {
    seq(3, i requires 0 <= i < 3 => seq(3, j requires 0 <= j < 3 => a[j][i]))
  }

  /** The transpose of a real matrix. */
  function RTranspose(a: RMat): (t: RMat)
    ensures forall i, j | 0 <= i < 3 && 0 <= j < 3 :: t[i][j] == a[j][i]
  {
    seq(3, i requires 0 <= i < 3 => seq(3, j requires 0 <= j < 3 => a[j][i]))
  }

  /** `c * a` for a real scalar c. */
  function RScale(c: real, a: RMat): RMat
  {
    seq(3, i requires 0 <= i < 3 => seq(3, j requires 0 <= j < 3 => c * a[i][j]))
  }

  /** The matrix-vector product `np.dot(a, v)`. */
  function RMatVec(a: RMat, v: Vec3): Vec3
  {
    [a[0][0] * v[0] + a[0][1] * v[1] + a[0][2] * v[2],
     a[1][0] * v[0] + a[1][1] * v[1] + a[1][2] * v[2],
     a[2][0] * v[0] + a[2][1] * v[1] + a[2][2] * v[2]]
  }

  /** The determinant, `np.linalg.det(a)`, by cofactor expansion along the first row. */
  function Det(a: RMat): real
  {
    a[0][0] * (a[1][1] * a[2][2] - a[1][2] * a[2][1])
    - a[0][1] * (a[1][0] * a[2][2] - a[1][2] * a[2][0])
    + a[0][2] * (a[1][0] * a[2][1] - a[1][1] * a[2][0])
  }

  /** a * (c b) == c (a * b) */
  lemma RMulScaleRight(a: RMat, c: real, b: RMat)
    ensures RMul(a, RScale(c, b)) == RScale(c, RMul(a, b))
  {
    forall i, j | 0 <= i < 3 && 0 <= j < 3
      ensures RMul(a, RScale(c, b))[i][j] == RScale(c, RMul(a, b))[i][j]
    {
      DotScaled(a[i][0], a[i][1], a[i][2], b[0][j], b[1][j], b[2][j], c);
    }
    RMatEq(RMul(a, RScale(c, b)), RScale(c, RMul(a, b)));
  }

  lemma DotScaled(x0: real, x1: real, x2: real, y0: real, y1: real, y2: real, c: real)
    ensures x0 * (c * y0) + x1 * (c * y1) + x2 * (c * y2) == c * (x0 * y0 + x1 * y1 + x2 * y2)
  {
  }

  /** A matrix and its transpose have the same determinant. */
  lemma DetTranspose(a: RMat)
    ensures Det(RTranspose(a)) == Det(a)
  {
    var t := RTranspose(a);
    assert Det(t) == Cofactor3(a[0][0], a[1][0], a[2][0], a[0][1], a[1][1], a[2][1], a[0][2], a[1][2], a[2][2]);
    assert Det(a) == Cofactor3(a[0][0], a[0][1], a[0][2], a[1][0], a[1][1], a[1][2], a[2][0], a[2][1], a[2][2]);
    Cofactor3Transpose(a[0][0], a[0][1], a[0][2], a[1][0], a[1][1], a[1][2], a[2][0], a[2][1], a[2][2]);
  }

  /** Scaling a matrix by c scales its determinant by c cubed. */
  lemma DetScale(c: real, a: RMat)
    ensures Det(RScale(c, a)) == c * c * c * Det(a)
  {
    var s := RScale(c, a);
    assert Det(s) == Cofactor3(c * a[0][0], c * a[0][1], c * a[0][2], c * a[1][0], c * a[1][1], c * a[1][2], c * a[2][0], c * a[2][1], c * a[2][2]);
    assert Det(a) == Cofactor3(a[0][0], a[0][1], a[0][2], a[1][0], a[1][1], a[1][2], a[2][0], a[2][1], a[2][2]);
    Cofactor3Scale(c, a[0][0], a[0][1], a[0][2], a[1][0], a[1][1], a[1][2], a[2][0], a[2][1], a[2][2]);
  }

  function Cofactor3(a: real, b: real, c: real, d: real, e: real, f: real, g: real, h: real, k: real): real
  {
    a * (e * k - f * h) - b * (d * k - f * g) + c * (d * h - e * g)
  }

  lemma Cofactor3Transpose(a: real, b: real, c: real, d: real, e: real, f: real, g: real, h: real, k: real)
    ensures Cofactor3(a, d, g, b, e, h, c, f, k) == Cofactor3(a, b, c, d, e, f, g, h, k)
  {
  }

  lemma Cofactor3Scale(s: real, a: real, b: real, c: real, d: real, e: real, f: real, g: real, h: real, k: real)
    ensures Cofactor3(s * a, s * b, s * c, s * d, s * e, s * f, s * g, s * h, s * k) == s * s * s * Cofactor3(a, b, c, d, e, f, g, h, k)
  {
  }
}
