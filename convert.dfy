/** The response-function converter of elkoa/utils/convert.py: projection
    operators built from the wavevector q, the Converter object that keeps
    regularized frequencies and the Electric Solution Generator (ESG) in step
    with its inputs, and the conversions between dielectric tensor,
    conductivity tensor, longitudinal part and refractive indices.

    Numbers are exact reals (no rounding); numpy's `sqrt` is the parameter
    `sqrt` of the converter, and facts that depend on its accuracy assume
    IsSqrt(sqrt). */
module Convert {
  import opened Py
  import opened Numerics
  import opened Fields
  import Misc

  // ---------------------------------------------------------------------
  // Projection operators

  /** The outer product q qᵀ scaled by c; with c = 1 / |q|² this is numpy's
      `np.dot(q, q.T) / qabs2` (the same real number, since rounding is not modelled). */
  function Outer(q: Vec3, c: real): RMat
  {
    seq(3, i requires 0 <= i < 3 => seq(3, j requires 0 <= j < 3 => q[i] * q[j] * c))
  }

  /** P L and P T are complementary orthogonal projectors. */
  predicate ProjectorPair(pL: RMat, pT: RMat)
  {
    && RAdd(pL, pT) == RIdentity()
    && RMul(pL, pL) == pL && RMul(pT, pT) == pT
    && RMul(pL, pT) == RZero() && RMul(pT, pL) == RZero()
    && RSymmetric(pL) && RSymmetric(pT)
  }

  /** |q|² p is q qᵀ entrywise. */
  predicate AlongQ(p: RMat, q: Vec3)
  {
    forall i, j | 0 <= i < 3 && 0 <= j < 3 :: p[i][j] * Norm2(q) == q[i] * q[j]
  }

  /** `buildProjectionOperators(q)`: (None, None) when |q|² < 1e-10, else the
      longitudinal projector q qᵀ / |q|² and the transverse one I - P L. */
  function ProjectionOperators(q: Vec3): (r: Option<(RMat, RMat)>)
    ensures r.None? <==> Norm2(q) < ZeroThreshold
    ensures r.Some? ==> ProjectorPair(r.value.0, r.value.1)
    ensures r.Some? ==> AlongQ(r.value.0, q)
  {
    var qabs2 := Norm2(q);
    if qabs2 < ZeroThreshold then None
    else
      var c := Reciprocal(qabs2);
      ProjectorsOf(q, c);
      Some((Outer(q, c), RSub(RIdentity(), Outer(q, c))))
  }

  /** q qᵀ c with c |q|² = 1 and its complement form a projector pair. */
  lemma ProjectorsOf(q: Vec3, c: real)
    requires c * Norm2(q) == 1.0
    ensures ProjectorPair(Outer(q, c), RSub(RIdentity(), Outer(q, c)))
    ensures AlongQ(Outer(q, c), q)
  {
    OuterProjector(q, c);
    ComplementProjector(Outer(q, c));
  }

  /** `1 / n`, stated by its product with n. */
  function Reciprocal(n: real): (c: real)
    requires n != 0.0
    ensures c * n == 1.0
  {
    1.0 / n
  }

  /** q qᵀ c is symmetric and idempotent when c |q|² = 1, and |q|² times it is q qᵀ. */
  lemma OuterProjector(q: Vec3, c: real)
    requires c * Norm2(q) == 1.0
    ensures RMul(Outer(q, c), Outer(q, c)) == Outer(q, c)
    ensures RSymmetric(Outer(q, c))
    ensures forall i, j | 0 <= i < 3 && 0 <= j < 3 :: Outer(q, c)[i][j] * Norm2(q) == q[i] * q[j]
  {
    OuterIdempotent(q, c);
    OuterSymmetric(q, c);
    forall i, j | 0 <= i < 3 && 0 <= j < 3
      ensures Outer(q, c)[i][j] * Norm2(q) == q[i] * q[j]
    {
      OuterScaledAt(q, c, i, j);
    }
  }

  lemma OuterIdempotent(q: Vec3, c: real)
    requires c * Norm2(q) == 1.0
    ensures RMul(Outer(q, c), Outer(q, c)) == Outer(q, c)
  {
    var p := Outer(q, c);
    forall i, j | 0 <= i < 3 && 0 <= j < 3
      ensures RMul(p, p)[i][j] == p[i][j]
    {
      OuterSquareAt(q, c, i, j);
    }
    RMatEq(RMul(p, p), p);
  }

  lemma OuterSymmetric(q: Vec3, c: real)
    ensures RSymmetric(Outer(q, c))
  {
    forall i, j | 0 <= i < 3 && 0 <= j < 3
      ensures Outer(q, c)[i][j] == Outer(q, c)[j][i]
    {
      assert q[i] * q[j] * c == q[j] * q[i] * c;
    }
  }

  lemma OuterSquareAt(q: Vec3, c: real, i: int, j: int)
    requires c * Norm2(q) == 1.0 && 0 <= i < 3 && 0 <= j < 3
    ensures RMul(Outer(q, c), Outer(q, c))[i][j] == Outer(q, c)[i][j]
  {
    OuterSquarePoly(q, c, i, j);
    ScaledByOne(RMul(Outer(q, c), Outer(q, c))[i][j], Outer(q, c)[i][j], c * Norm2(q));
  }

  /** (q qᵀ c)(q qᵀ c) = (c |q|²) q qᵀ c, entry by entry. */
  lemma OuterSquarePoly(q: Vec3, c: real, i: int, j: int)
    requires 0 <= i < 3 && 0 <= j < 3
    ensures RMul(Outer(q, c), Outer(q, c))[i][j] == Outer(q, c)[i][j] * (c * Norm2(q))
  {
    OuterDotEntries(q, c, i, j);
    OuterSquareReal(q[i], q[j], q[0], q[1], q[2], c);
  }

  lemma OuterDotEntries(q: Vec3, c: real, i: int, j: int)
    requires 0 <= i < 3 && 0 <= j < 3
    ensures RMul(Outer(q, c), Outer(q, c))[i][j]
         == (q[i] * q[0] * c) * (q[0] * q[j] * c) + (q[i] * q[1] * c) * (q[1] * q[j] * c) + (q[i] * q[2] * c) * (q[2] * q[j] * c)
  {
    var a := Outer(q, c);
    assert RMul(a, a)[i][j] == RDot(a, a, i, j);
    OuterDotTerm(q, c, i, j, 0);
    OuterDotTerm(q, c, i, j, 1);
    OuterDotTerm(q, c, i, j, 2);
  }

  /** One term of that sum. */
  lemma OuterDotTerm(q: Vec3, c: real, i: int, j: int, k: int)
    requires 0 <= i < 3 && 0 <= j < 3 && 0 <= k < 3
    ensures Outer(q, c)[i][k] * Outer(q, c)[k][j] == (q[i] * q[k] * c) * (q[k] * q[j] * c)
  {
  }

  lemma OuterSquareReal(a: real, b: real, x0: real, x1: real, x2: real, c: real)
    ensures (a * x0 * c) * (x0 * b * c) + (a * x1 * c) * (x1 * b * c) + (a * x2 * c) * (x2 * b * c)
         == (a * b * c) * (c * (x0 * x0 + x1 * x1 + x2 * x2))
  {
  }

  lemma OuterScaledAt(q: Vec3, c: real, i: int, j: int)
    requires c * Norm2(q) == 1.0 && 0 <= i < 3 && 0 <= j < 3
    ensures Outer(q, c)[i][j] * Norm2(q) == q[i] * q[j]
  {
    OuterScaledReal(q[i] * q[j], c, Norm2(q));
    ScaledByOne(Outer(q, c)[i][j] * Norm2(q), q[i] * q[j], c * Norm2(q));
  }

  lemma OuterScaledReal(x: real, c: real, n: real)
    ensures x * c * n == x * (c * n)
  {
  }

  /** Multiplying by a factor equal to one; the factor is a parameter so that
      the solver meets it as a single term. */
  lemma ScaledByOne(x: real, y: real, k: real)
    requires x == y * k && k == 1.0
    ensures x == y
  {
  }

  /** If P is a symmetric idempotent, so is I - P, and the two annihilate each other. */
  lemma ComplementProjector(p: RMat)
    requires RMul(p, p) == p && RSymmetric(p)
    ensures ProjectorPair(p, RSub(RIdentity(), p))
  {
    var t := RSub(RIdentity(), p);
    RMatEq(RAdd(p, t), RIdentity());
    RMulIdentityMinus(p, p);
    RMatEq(RSub(p, p), RZero());
    RIdentityMinusMul(p, p);
    RIdentityMinusMul(p, t);
    RMulIdentityMinus(t, p);
    assert RMul(p, t) == RZero();
    assert RMul(t, p) == RZero();
    calc {
      RMul(t, t);
      RSub(t, RMul(p, t));
      RSub(t, RZero());
      { RMatEq(RSub(t, RZero()), t); }
      t;
    }
  }

  // ---------------------------------------------------------------------
  // The NaN guard

  /** The `checkForNan` decorator: a field holding a NaN anywhere is refused
      with ValueError before the wrapped conversion runs. */
  function CheckForNan(t: Field): (r: Result<Field>)
    requires |t| == 3 && forall i | 0 <= i < 3 :: |t[i]| == 3
    ensures r.Raise? <==> exists i, j, f | 0 <= i < 3 && 0 <= j < 3 && 0 <= f < |t[i][j]| :: t[i][j][f].IsNaN()
    ensures r.Raise? <==> HasNaN(t)
    ensures r.Raise? ==> r.exc == ValueError
    ensures r.Ok? ==> r.value == t
  {
    HasNaNIff(t);
    if HasNaN(t) then Raise(ValueError) else Ok(t)
  }

  // ---------------------------------------------------------------------
  // Derived members of a converter, as functions of its inputs

  /** The two accepted regularization modes. */
  predicate IsRegularization(reg: string)
  {
    reg == "conv" || reg == "imp"
  }

  /** `freqs / misc.hartree2ev`: frequencies given in eV, stored in Hartree. */
  function ToHartree(freqsEv: seq<real>): (r: seq<real>)
    ensures |r| == |freqsEv|
    ensures forall f | 0 <= f < |r| :: r[f] * Misc.Hartree2eV == freqsEv[f]
  {
    seq(|freqsEv|, f requires 0 <= f < |freqsEv| => freqsEv[f] / Misc.Hartree2eV)
  }

  /** One regularized frequency: ω + iη ("conv"), or numpy's principal root of
      ω² + 2iηω ("imp"). */
  function Regularized(sqrt: real -> real, w: real, eta: real, reg: string): Complex
    requires IsRegularization(reg)
  {
    if reg == "conv" then Complex(w, eta)
    else CSqrt(sqrt, Complex(w * w, 2.0 * eta * w))
  }

  /** `_rfreqs`, the regularized frequencies. */
  function RegularizedFrequencies(sqrt: real -> real, freqs: seq<real>, eta: real, reg: string): (r: seq<Complex>)
    requires IsRegularization(reg)
    ensures |r| == |freqs|
    ensures forall f | 0 <= f < |r| :: r[f] == Regularized(sqrt, freqs[f], eta, reg)
  {
    seq(|freqs|, f requires 0 <= f < |freqs| => Regularized(sqrt, freqs[f], eta, reg))
  }

  /** The improved regularization squares to ω² + 2iηω and has a non-negative
      real part, while the conventional one squares to ω² - η² + 2iηω. */
  lemma RegularizedSquares(sqrt: real -> real, w: real, eta: real)
    requires IsSqrt(sqrt)
    ensures Mul(Regularized(sqrt, w, eta, "imp"), Regularized(sqrt, w, eta, "imp")) == Complex(w * w, 2.0 * eta * w)
    ensures Regularized(sqrt, w, eta, "imp").re >= 0.0
    ensures Mul(Regularized(sqrt, w, eta, "conv"), Regularized(sqrt, w, eta, "conv")) == Complex(w * w - eta * eta, 2.0 * eta * w)
  {
    CSqrtSquares(sqrt, Complex(w * w, 2.0 * eta * w));
  }

  /** Without damping (η = 0) both regularizations leave a non-negative
      frequency as it is. */
  lemma RegularizationsAgreeUndamped(sqrt: real -> real, w: real)
    requires IsSqrt(sqrt) && w >= 0.0
    ensures Regularized(sqrt, w, 0.0, "imp") == Regularized(sqrt, w, 0.0, "conv") == Complex(w, 0.0)
  {
    var z := Complex(w * w, 2.0 * 0.0 * w);
    var a := Abs(sqrt, z);
    AbsSquare(sqrt, z);
    SquareNonNegative(w);
    assert a * a == (w * w) * (w * w);
    SquaresEqual(a, w * w);
    SqrtCongruent(sqrt, 0.5 * (a + z.re), w * w);
    SqrtOfSquare(sqrt, w);
    SqrtCongruent(sqrt, 0.5 * (a - z.re), 0.0 * 0.0);
    SqrtOfSquare(sqrt, 0.0);
  }

  /** Equal arguments give equal roots (stated for the solver, which does not
      carry an arithmetic equation into a function argument by itself). */
  lemma SqrtCongruent(sqrt: real -> real, x: real, y: real)
    requires x == y
    ensures sqrt(x) == sqrt(y)
  {
  }

  /** The square root of x² is x for x >= 0. */
  lemma SqrtOfSquare(sqrt: real -> real, x: real)
    requires IsSqrt(sqrt) && x >= 0.0
    ensures sqrt(x * x) == x
  {
    SquareNonNegative(x);
    var r := sqrt(x * x);
    assert r >= 0.0 && r * r == x * x;
    SquaresEqual(r, x);
  }

  /** `fac = misc.sol_au**2 * qabs2 / rfreqs**2` at one frequency. */
  function Fac(qabs2: real, w: Complex): Complex
    requires Mul(w, w) != Zero
  {
    Div(Of(Misc.SolAu * Misc.SolAu * qabs2), Mul(w, w))
  }

  /** The divisions of `_buildMembers` at frequency w do not divide by zero
      (numpy raises FloatingPointError otherwise, np.seterr(all="raise")). */
  predicate Regular(qabs2: real, w: Complex)
  {
    Mul(w, w) != Zero && Sub(One, Fac(qabs2, w)) != Zero
  }

  /** `pre = 1 / (1 - fac)` at one frequency. */
  function Pre(qabs2: real, w: Complex): (p: Complex)
    requires Regular(qabs2, w)
    ensures p != Zero
    ensures Mul(p, Sub(One, Fac(qabs2, w))) == One
  {
    Inv(Sub(One, Fac(qabs2, w)))
  }

  /** The inputs of a converter from which `_buildMembers` completes: a valid
      regularization, and no division by zero in the general branch. */
  predicate Admissible(sqrt: real -> real, q: Vec3, freqs: seq<real>, eta: real, opticalLimit: bool, reg: string)
  {
    && IsRegularization(reg)
    && (Norm2(q) >= ZeroThreshold && !opticalLimit ==>
          forall f | 0 <= f < |freqs| :: Regular(Norm2(q), Regularized(sqrt, freqs[f], eta, reg)))
  }

  /** The members `_buildMembers` computes. esg[f] and esgInv[f] stand for
      numpy's slices `_esg[:, :, f]` and `_esgInv[:, :, f]`. */
  datatype Members = Members(
    qabs2: real,
    qabs: real,
    rfreqs: seq<Complex>,
    pL: Option<RMat>,
    pT: Option<RMat>,
    esg: seq<CMat>,
    esgInv: seq<CMat>)

  /** The Electric Solution Generator pL + p pT for the factor p. */
  function Esg(pL: RMat, pT: RMat, p: Complex): CMat
  {
    CAdd(Lift(pL), CScale(p, Lift(pT)))
  }

  /** n copies of the 3x3 identity. */
  function Identities(n: nat): (r: seq<CMat>)
    ensures |r| == n && forall f | 0 <= f < n :: r[f] == CId()
  {
    seq(n, f => CId())
  }

  /** What `_buildMembers` computes from the inputs. */
  function Derive(sqrt: real -> real, q: Vec3, freqs: seq<real>, eta: real, opticalLimit: bool, reg: string): (m: Members)
    requires Admissible(sqrt, q, freqs, eta, opticalLimit, reg)
    ensures |m.rfreqs| == |m.esg| == |m.esgInv| == |freqs|
  {
    var qabs2 := Norm2(q);
    var rfreqs := RegularizedFrequencies(sqrt, freqs, eta, reg);
    if qabs2 < ZeroThreshold then
      Members(qabs2, sqrt(qabs2), rfreqs, None, None, Identities(|freqs|), Identities(|freqs|))
    else
      var pL := ProjectionOperators(q).value.0;
      var pT := ProjectionOperators(q).value.1;
      if opticalLimit then
        Members(qabs2, sqrt(qabs2), rfreqs, Some(pL), Some(pT), Identities(|freqs|), Identities(|freqs|))
      else
        Members(qabs2, sqrt(qabs2), rfreqs, Some(pL), Some(pT),
                seq(|freqs|, f requires 0 <= f < |freqs| => Esg(pL, pT, Pre(qabs2, rfreqs[f]))),
                seq(|freqs|, f requires 0 <= f < |freqs| => Esg(pL, pT, Inv(Pre(qabs2, rfreqs[f])))))
  }

  /** The projectors are missing exactly for a zero wavevector and are
      otherwise those of `buildProjectionOperators`; |q| squares to |q|². */
  lemma DeriveProjectors(sqrt: real -> real, q: Vec3, freqs: seq<real>, eta: real, opticalLimit: bool, reg: string)
    requires Admissible(sqrt, q, freqs, eta, opticalLimit, reg)
    ensures var m := Derive(sqrt, q, freqs, eta, opticalLimit, reg);
      && m.qabs2 == Norm2(q)
      && (m.pL.None? <==> Norm2(q) < ZeroThreshold)
      && (m.pL.None? <==> m.pT.None?)
      && (m.pL.Some? ==> Some((m.pL.value, m.pT.value)) == ProjectionOperators(q) && ProjectorPair(m.pL.value, m.pT.value))
      && (IsSqrt(sqrt) ==> m.qabs >= 0.0 && m.qabs * m.qabs == m.qabs2)
  {
    Norm2NonNegative(q);
  }

  /** For a zero wavevector or in the optical limit, every ESG and its
      inverse are the identity. */
  lemma DeriveIdentityEsg(sqrt: real -> real, q: Vec3, freqs: seq<real>, eta: real, opticalLimit: bool, reg: string)
    requires Admissible(sqrt, q, freqs, eta, opticalLimit, reg)
    requires Norm2(q) < ZeroThreshold || opticalLimit
    ensures var m := Derive(sqrt, q, freqs, eta, opticalLimit, reg);
      forall f | 0 <= f < |freqs| :: m.esg[f] == CId() && m.esgInv[f] == CId()
  {
  }

  /** In the general branch ESG[f] = pL + p pT and ESGInv[f] = pL + (1/p) pT
      with p = 1 / (1 - c²|q|²/rfreqs[f]²). */
  lemma DeriveGeneralEsg(sqrt: real -> real, q: Vec3, freqs: seq<real>, eta: real, opticalLimit: bool, reg: string, f: int)
    requires Admissible(sqrt, q, freqs, eta, opticalLimit, reg)
    requires Norm2(q) >= ZeroThreshold && !opticalLimit && 0 <= f < |freqs|
    ensures var m := Derive(sqrt, q, freqs, eta, opticalLimit, reg);
      var w := Regularized(sqrt, freqs[f], eta, reg);
      && Regular(Norm2(q), w)
      && m.pL.Some? && m.pT.Some?
      && m.esg[f] == Esg(m.pL.value, m.pT.value, Pre(Norm2(q), w))
      && Mul(Pre(Norm2(q), w), Sub(One, Div(Of(Misc.SolAu * Misc.SolAu * Norm2(q)), Mul(w, w)))) == One
      && m.esgInv[f] == Esg(m.pL.value, m.pT.value, Inv(Pre(Norm2(q), w)))
  {
  }

  /** ESG[f] and ESGInv[f] are inverse to each other at every frequency, in
      every branch. */
  lemma EsgInverse(sqrt: real -> real, q: Vec3, freqs: seq<real>, eta: real, opticalLimit: bool, reg: string)
    requires Admissible(sqrt, q, freqs, eta, opticalLimit, reg)
    ensures var m := Derive(sqrt, q, freqs, eta, opticalLimit, reg);
      forall f | 0 <= f < |freqs| :: CMul(m.esg[f], m.esgInv[f]) == CId() && CMul(m.esgInv[f], m.esg[f]) == CId()
  {
    var m := Derive(sqrt, q, freqs, eta, opticalLimit, reg);
    forall f | 0 <= f < |freqs|
      ensures CMul(m.esg[f], m.esgInv[f]) == CId() && CMul(m.esgInv[f], m.esg[f]) == CId()
    {
      if Norm2(q) < ZeroThreshold || opticalLimit {
        CMulIdentityLeft(CId());
      } else {
        var pL, pT := m.pL.value, m.pT.value;
        var p := Pre(Norm2(q), m.rfreqs[f]);
        var pInv := Inv(p);
        assert ProjectorPair(pL, pT);
        CombinationInverse(pL, pT, p, pInv);
        CombinationInverse(pL, pT, pInv, p);
      }
    }
  }

  // ---------------------------------------------------------------------
  // Conductivity and dielectric tensor at one frequency

  /** `4 * np.pi / (1j * w)`. */
  function SigmaFactor(w: Complex): Complex
    requires w != Zero
  {
    MulJNonZero(w);
    Div(Of(4.0 * Pi), Mul(J, w))
  }

  /** `1j * w / (4 * np.pi)`. */
  function EpsilonFactor(w: Complex): Complex
  {
    Div(Mul(J, w), Of(4.0 * Pi))
  }

  lemma FactorsReciprocal(w: Complex)
    requires w != Zero
    ensures Mul(SigmaFactor(w), EpsilonFactor(w)) == One
    ensures Mul(EpsilonFactor(w), SigmaFactor(w)) == One
  {
    MulJNonZero(w);
    DivReciprocal(Of(4.0 * Pi), Mul(J, w));
    DivReciprocal(Mul(J, w), Of(4.0 * Pi));
  }

  /** ε = 1 - 4π/(iω) ESG σ at one frequency. */
  function SigmaToEpsilonAt(esg: CMat, w: Complex, sigma: CMat): CMat
    requires w != Zero
  {
    CSub(CId(), CScale(SigmaFactor(w), CMul(esg, sigma)))
  }

  /** σ = ESG⁻¹ (iω/4π) (1 - ε) at one frequency. */
  function EpsilonToSigmaAt(esgInv: CMat, w: Complex, eps: CMat): CMat
  {
    CMul(esgInv, CScale(EpsilonFactor(w), CSub(CId(), eps)))
  }

  /** Converting ε to σ and back gives ε, when esgInv is a right inverse of esg. */
  lemma EpsilonRoundTripAt(esg: CMat, esgInv: CMat, w: Complex, eps: CMat)
    requires w != Zero && CMul(esg, esgInv) == CId()
    ensures SigmaToEpsilonAt(esg, w, EpsilonToSigmaAt(esgInv, w, eps)) == eps
  {
    var x := CScale(EpsilonFactor(w), CSub(CId(), eps));
    CMulAssoc(esg, esgInv, x);
    CMulIdentityLeft(x);
    CScaleScale(SigmaFactor(w), EpsilonFactor(w), CSub(CId(), eps));
    FactorsReciprocal(w);
    CScaleOne(CSub(CId(), eps));
    CSubSub(eps);
  }

  /** Converting σ to ε and back gives σ, when esgInv is a left inverse of esg. */
  lemma SigmaRoundTripAt(esg: CMat, esgInv: CMat, w: Complex, sigma: CMat)
    requires w != Zero && CMul(esgInv, esg) == CId()
    ensures EpsilonToSigmaAt(esgInv, w, SigmaToEpsilonAt(esg, w, sigma)) == sigma
  {
    var y := CMul(esg, sigma);
    CSubSub(CScale(SigmaFactor(w), y));
    CScaleScale(EpsilonFactor(w), SigmaFactor(w), y);
    FactorsReciprocal(w);
    CScaleOne(y);
    CMulAssoc(esgInv, esg, sigma);
    CMulIdentityLeft(sigma);
  }

  // ---------------------------------------------------------------------
  // Conductivity and dielectric tensor as fields

  /** Some regularized frequency is zero, where 4π/(iω) divides by zero. */
  predicate SomeZero(rfreqs: seq<Complex>)
  {
    exists f | 0 <= f < |rfreqs| :: rfreqs[f] == Zero
  }

  /** The ε slices `sigmaToEpsilon` computes from a NaN-free σ. */
  function SigmaToEpsilonSlices(esg: seq<CMat>, rfreqs: seq<Complex>, sigma: Field): (r: seq<CMat>)
    requires Shaped(sigma) && |esg| == |rfreqs| == NumFreqs(sigma)
    requires !HasNaN(sigma) && !SomeZero(rfreqs)
    ensures |r| == |rfreqs|
    ensures forall f | 0 <= f < |r| :: r[f] == SigmaToEpsilonAt(esg[f], rfreqs[f], Slice(sigma, f))
  {
    seq(|rfreqs|, f requires 0 <= f < |rfreqs| => SigmaToEpsilonAt(esg[f], rfreqs[f], Slice(sigma, f)))
  }

  /** The σ slices `epsilonToSigma` computes from a NaN-free ε. */
  function EpsilonToSigmaSlices(esgInv: seq<CMat>, rfreqs: seq<Complex>, eps: Field): (r: seq<CMat>)
    requires Shaped(eps) && |esgInv| == |rfreqs| == NumFreqs(eps)
    requires !HasNaN(eps)
    ensures |r| == |rfreqs|
    ensures forall f | 0 <= f < |r| :: r[f] == EpsilonToSigmaAt(esgInv[f], rfreqs[f], Slice(eps, f))
  {
    seq(|rfreqs|, f requires 0 <= f < |rfreqs| => EpsilonToSigmaAt(esgInv[f], rfreqs[f], Slice(eps, f)))
  }

  /** `sigmaToEpsilon`: the NaN guard, then ε[:, :, f] from σ[:, :, f] at every
      frequency; a zero frequency raises FloatingPointError. */
  function SigmaToEpsilonOf(esg: seq<CMat>, rfreqs: seq<Complex>, sigma: Field): (r: Result<Field>)
    requires Shaped(sigma) && |esg| == |rfreqs| == NumFreqs(sigma)
    ensures HasNaN(sigma) ==> r == Raise(ValueError)
    ensures !HasNaN(sigma) && SomeZero(rfreqs) ==> r == Raise(FloatingPointError)
    ensures r.Ok? <==> !HasNaN(sigma) && !SomeZero(rfreqs)
    ensures r.Ok? ==> r.value == FieldOf(SigmaToEpsilonSlices(esg, rfreqs, sigma))
  {
    var s :- CheckForNan(sigma);
    if SomeZero(rfreqs) then Raise(FloatingPointError)
    else Ok(FieldOf(SigmaToEpsilonSlices(esg, rfreqs, s)))
  }

  /** `epsilonToSigma`: the NaN guard, then σ[:, :, f] from ε[:, :, f] at every frequency. */
  function EpsilonToSigmaOf(esgInv: seq<CMat>, rfreqs: seq<Complex>, eps: Field): (r: Result<Field>)
    requires Shaped(eps) && |esgInv| == |rfreqs| == NumFreqs(eps)
    ensures r.Raise? <==> HasNaN(eps)
    ensures r.Raise? ==> r.exc == ValueError
    ensures r.Ok? ==> r.value == FieldOf(EpsilonToSigmaSlices(esgInv, rfreqs, eps))
  {
    var e :- CheckForNan(eps);
    Ok(FieldOf(EpsilonToSigmaSlices(esgInv, rfreqs, e)))
  }

  /** Stacking the converted slices of a field that is itself stacked from ms. */
  lemma SlicesMatch(t: Field, ms: seq<CMat>)
    requires Shaped(t) && !HasNaN(t) && |ms| == NumFreqs(t)
    requires forall f | 0 <= f < |ms| :: ms[f] == Slice(t, f)
    ensures FieldOf(ms) == t
  {
    FieldEq(FieldOf(ms), t);
  }

  /** ε → σ → ε is the identity on NaN-free fields, at non-zero frequencies. */
  lemma EpsilonRoundTrip(esg: seq<CMat>, esgInv: seq<CMat>, rfreqs: seq<Complex>, eps: Field)
    requires Shaped(eps) && |esg| == |esgInv| == |rfreqs| == NumFreqs(eps)
    requires forall f | 0 <= f < |rfreqs| :: rfreqs[f] != Zero && CMul(esg[f], esgInv[f]) == CId()
    requires !HasNaN(eps)
    ensures EpsilonToSigmaOf(esgInv, rfreqs, eps).Ok?
    ensures SigmaToEpsilonOf(esg, rfreqs, EpsilonToSigmaOf(esgInv, rfreqs, eps).value) == Ok(eps)
  {
    var ms := EpsilonToSigmaSlices(esgInv, rfreqs, eps);
    var sigma := FieldOf(ms);
    FieldOfSlices(ms);
    var back := SigmaToEpsilonSlices(esg, rfreqs, sigma);
    forall f | 0 <= f < |back|
      ensures back[f] == Slice(eps, f)
    {
      EpsilonRoundTripAt(esg[f], esgInv[f], rfreqs[f], Slice(eps, f));
    }
    SlicesMatch(eps, back);
  }

  /** σ → ε → σ is the identity on NaN-free fields, at non-zero frequencies. */
  lemma SigmaRoundTrip(esg: seq<CMat>, esgInv: seq<CMat>, rfreqs: seq<Complex>, sigma: Field)
    requires Shaped(sigma) && |esg| == |esgInv| == |rfreqs| == NumFreqs(sigma)
    requires forall f | 0 <= f < |rfreqs| :: rfreqs[f] != Zero && CMul(esgInv[f], esg[f]) == CId()
    requires !HasNaN(sigma)
    ensures SigmaToEpsilonOf(esg, rfreqs, sigma).Ok?
    ensures EpsilonToSigmaOf(esgInv, rfreqs, SigmaToEpsilonOf(esg, rfreqs, sigma).value) == Ok(sigma)
  {
    var ms := SigmaToEpsilonSlices(esg, rfreqs, sigma);
    var eps := FieldOf(ms);
    FieldOfSlices(ms);
    var back := EpsilonToSigmaSlices(esgInv, rfreqs, eps);
    forall f | 0 <= f < |back|
      ensures back[f] == Slice(sigma, f)
    {
      SigmaRoundTripAt(esg[f], esgInv[f], rfreqs[f], Slice(sigma, f));
    }
    SlicesMatch(sigma, back);
  }

  /** For any admissible converter, ε → σ → ε and σ → ε → σ are identities
      whenever no regularized frequency is zero (which the general branch
      already guarantees). */
  lemma ConverterRoundTrips(sqrt: real -> real, q: Vec3, freqs: seq<real>, eta: real, opticalLimit: bool, reg: string, t: Field)
    requires Admissible(sqrt, q, freqs, eta, opticalLimit, reg)
    requires Shaped(t) && NumFreqs(t) == |freqs| && !HasNaN(t)
    requires forall f | 0 <= f < |freqs| :: Regularized(sqrt, freqs[f], eta, reg) != Zero
    ensures var m := Derive(sqrt, q, freqs, eta, opticalLimit, reg);
      && EpsilonToSigmaOf(m.esgInv, m.rfreqs, t).Ok?
      && SigmaToEpsilonOf(m.esg, m.rfreqs, EpsilonToSigmaOf(m.esgInv, m.rfreqs, t).value) == Ok(t)
      && SigmaToEpsilonOf(m.esg, m.rfreqs, t).Ok?
      && EpsilonToSigmaOf(m.esgInv, m.rfreqs, SigmaToEpsilonOf(m.esg, m.rfreqs, t).value) == Ok(t)
  {
    var m := Derive(sqrt, q, freqs, eta, opticalLimit, reg);
    EsgInverse(sqrt, q, freqs, eta, opticalLimit, reg);
    EpsilonRoundTrip(m.esg, m.esgInv, m.rfreqs, t);
    SigmaRoundTrip(m.esg, m.esgInv, m.rfreqs, t);
  }

  /** In the general branch no regularized frequency is zero, so the
      conversions never divide by zero there. */
  lemma GeneralBranchNonZero(sqrt: real -> real, q: Vec3, freqs: seq<real>, eta: real, opticalLimit: bool, reg: string)
    requires Admissible(sqrt, q, freqs, eta, opticalLimit, reg)
    requires Norm2(q) >= ZeroThreshold && !opticalLimit
    ensures !SomeZero(Derive(sqrt, q, freqs, eta, opticalLimit, reg).rfreqs)
  {
  }

  // ---------------------------------------------------------------------
  // Longitudinal part

  /** numpy's `np.dot(pL, ten)` on a (3, 3, N) array: it contracts pL's last
      axis with the SECOND axis of ten, so entry (i, j, f) is
      Σ_m pL[i][m] ten[j][m][f]. */
  function DotField(pL: RMat, t: Field): (r: Field)
    requires Shaped(t) && !HasNaN(t)
    ensures Shaped(r) && NumFreqs(r) == NumFreqs(t) && !HasNaN(r)
  {
    var n := NumFreqs(t);
    var r := seq(3, i requires 0 <= i < 3 => seq(3, j requires 0 <= j < 3 => seq(n, f requires 0 <= f < n =>
      ToCFloat(Add(Add(Mul(Of(pL[i][0]), Slice(t, f)[j][0]), Mul(Of(pL[i][1]), Slice(t, f)[j][1])),
                   Mul(Of(pL[i][2]), Slice(t, f)[j][2]))))));
    HasNaNIff(r);
    r
  }

  /** `longitudinalPart` as written: the NaN guard, None without projectors,
      otherwise `np.dot(pL, ten)`. */
  function LongitudinalPartAsWritten(pL: Option<RMat>, ten: Field): (r: Result<Option<Field>>)
    requires Shaped(ten)
    ensures r.Raise? <==> HasNaN(ten)
    ensures r.Raise? ==> r.exc == ValueError
    ensures r.Ok? ==> (r.value.None? <==> pL.None?)
    ensures r.Ok? && r.value.Some? ==> Shaped(r.value.value) && NumFreqs(r.value.value) == NumFreqs(ten)
  {
    var t :- CheckForNan(ten);
    if pL.None? then Ok(None) else Ok(Some(DotField(pL.value, t)))
  }

  /** Frequency by frequency, the as-written product is pL Tᵀ rather than pL T. */
  lemma DotFieldSlices(pL: RMat, t: Field, f: nat)
    requires Shaped(t) && !HasNaN(t) && f < NumFreqs(t)
    ensures Slice(DotField(pL, t), f) == CMul(Lift(pL), CTranspose(Slice(t, f)))
  {
    var r := DotField(pL, t);
    var a := CMul(Lift(pL), CTranspose(Slice(t, f)));
    forall i, j | 0 <= i < 3 && 0 <= j < 3
      ensures Slice(r, f)[i][j] == a[i][j]
    {
      assert ToCFloat(Slice(r, f)[i][j]) == ToCFloat(a[i][j]);
    }
    CMatEq(Slice(r, f), a);
  }

  /** The longitudinal part P_L T at every frequency. */
  function LongitudinalSlices(pL: RMat, t: Field): (r: seq<CMat>)
    requires Shaped(t) && !HasNaN(t)
    ensures |r| == NumFreqs(t)
    ensures forall f | 0 <= f < |r| :: r[f] == CMul(Lift(pL), Slice(t, f))
  {
    seq(NumFreqs(t), f requires 0 <= f < NumFreqs(t) => CMul(Lift(pL), Slice(t, f)))
  }

  /** `longitudinalPart` with the projector applied from the left at every
      frequency, as the method's purpose states. */
  function LongitudinalPart(pL: Option<RMat>, ten: Field): (r: Result<Option<Field>>)
    requires Shaped(ten)
    ensures r.Raise? <==> HasNaN(ten)
    ensures r.Raise? ==> r.exc == ValueError
    ensures r.Ok? ==> (r.value.None? <==> pL.None?)
    ensures r.Ok? && r.value.Some? ==> r.value.value == FieldOf(LongitudinalSlices(pL.value, ten))
  {
    var t :- CheckForNan(ten);
    if pL.None? then Ok(None) else Ok(Some(FieldOf(LongitudinalSlices(pL.value, t))))
  }

  /** The longitudinal part is fixed by P_L and annihilated by P_T: it is
      longitudinal, and taking it twice changes nothing. */
  lemma LongitudinalPartProjects(q: Vec3, ten: Field)
    requires Shaped(ten) && !HasNaN(ten)
    requires Norm2(q) >= ZeroThreshold
    ensures var pL := ProjectionOperators(q).value.0;
      var pT := ProjectionOperators(q).value.1;
      var r := LongitudinalPart(Some(pL), ten).value.value;
      && !HasNaN(r)
      && (forall f | 0 <= f < NumFreqs(ten) ::
            CMul(Lift(pL), Slice(r, f)) == Slice(r, f) && CMul(Lift(pT), Slice(r, f)) == CZero())
      && LongitudinalPart(Some(pL), r) == Ok(Some(r))
  {
    var (pL, pT) := ProjectionOperators(q).value;
    var ms := LongitudinalSlices(pL, ten);
    var r := FieldOf(ms);
    FieldOfSlices(ms);
    LiftMul(pL, pL);
    LiftMul(pT, pL);
    LiftConstants();
    forall f | 0 <= f < NumFreqs(ten)
      ensures CMul(Lift(pL), Slice(r, f)) == Slice(r, f) && CMul(Lift(pT), Slice(r, f)) == CZero()
    {
      var s := Slice(ten, f);
      CMulAssoc(Lift(pL), Lift(pL), s);
      CMulAssoc(Lift(pT), Lift(pL), s);
      CMulZeroLeft(s);
    }
    SlicesMatch(r, LongitudinalSlices(pL, r));
  }

  /** Where every slice is symmetric, the as-written product is the longitudinal part. */
  lemma LongitudinalAgreesOnSymmetric(pL: Option<RMat>, ten: Field)
    requires Shaped(ten) && !HasNaN(ten)
    requires forall f | 0 <= f < NumFreqs(ten) :: CTranspose(Slice(ten, f)) == Slice(ten, f)
    ensures LongitudinalPartAsWritten(pL, ten) == LongitudinalPart(pL, ten)
  {
    if pL.Some? {
      var d := DotField(pL.value, ten);
      forall f | 0 <= f < NumFreqs(ten)
        ensures LongitudinalSlices(pL.value, ten)[f] == Slice(d, f)
      {
        DotFieldSlices(pL.value, ten, f);
      }
      SlicesMatch(d, LongitudinalSlices(pL.value, ten));
    }
  }

  /** A tensor whose only non-zero element is xy. */
  function XYTensor(): Field
  {
    FieldOf([[[Zero, One, Zero], [Zero, Zero, Zero], [Zero, Zero, Zero]]])
  }

  /** For any projector with P_L[0][0] = 1, the xy element of the
      longitudinal part of XYTensor is 1, but `np.dot(pL, ten)` gives 0. */
  lemma XYTensorParts(pL: RMat)
    requires pL[0][0] == 1.0
    ensures !HasNaN(XYTensor())
    ensures LongitudinalPartAsWritten(Some(pL), XYTensor()).value.value[0][1][0] == ToCFloat(Zero)
    ensures LongitudinalPart(Some(pL), XYTensor()).value.value[0][1][0] == ToCFloat(One)
  {
    var t: CMat := [[Zero, One, Zero], [Zero, Zero, Zero], [Zero, Zero, Zero]];
    FieldOfSlices([t]);
    assert Slice(XYTensor(), 0) == t;
    assert LongitudinalSlices(pL, XYTensor())[0] == CMul(Lift(pL), t);
  }

  /** For q along x the longitudinal projector has P_L[0][0] = 1. */
  lemma ProjectorAlongX()
    ensures ProjectionOperators([1.0, 0.0, 0.0]).Some?
    ensures ProjectionOperators([1.0, 0.0, 0.0]).value.0[0][0] == 1.0
  {
    var q: Vec3 := [1.0, 0.0, 0.0];
    assert Norm2(q) == 1.0;
  }

  /** For q along x and a tensor whose only non-zero element is xy, the
      longitudinal part keeps that element, while `np.dot(pL, ten)` returns
      zero: the two differ for non-symmetric tensors. */
  lemma LongitudinalAsWrittenDiffers()
    ensures ProjectionOperators([1.0, 0.0, 0.0]).Some?
    ensures var pL := ProjectionOperators([1.0, 0.0, 0.0]).value.0;
      LongitudinalPartAsWritten(Some(pL), XYTensor()) != LongitudinalPart(Some(pL), XYTensor())
  {
    ProjectorAlongX();
    XYTensorParts(ProjectionOperators([1.0, 0.0, 0.0]).value.0);
  }

  // ---------------------------------------------------------------------
  // Refractive indices

  /** The refractive index n with n² = e taken from an eigenvalue e:
      sqrt((|e| + Re e)/2) + i sqrt((|e| - Re e)/2). */
  function RefractiveIndex(sqrt: real -> real, e: Complex): Complex
  {
    Complex(HalfRootRe(sqrt, e), HalfRootIm(sqrt, e))
  }

  /** The index has non-negative real and imaginary parts and squares to e
      up to the sign of Im e: n² = Re e + i |Im e|. */
  lemma RefractiveIndexSquares(sqrt: real -> real, e: Complex)
    requires IsSqrt(sqrt)
    ensures RefractiveIndex(sqrt, e).re >= 0.0 && RefractiveIndex(sqrt, e).im >= 0.0
    ensures Mul(RefractiveIndex(sqrt, e), RefractiveIndex(sqrt, e)) == Complex(e.re, if e.im < 0.0 then -e.im else e.im)
  {
    HalfRoots(sqrt, e);
    var a, b := HalfRootRe(sqrt, e), HalfRootIm(sqrt, e);
    assert a * b + b * a == 2.0 * a * b;
  }

  /** Re e + i |Im e|: the square of the index taken from e. */
  function Folded(e: Complex): Complex
  {
    Complex(e.re, if e.im < 0.0 then -e.im else e.im)
  }

  /** The refractive indices from the first (k = 0) or second (k = 1)
      eigenvalue at every frequency. */
  function Indices(sqrt: real -> real, eigenvalues: seq<(Complex, Complex)>, k: nat): (r: seq<Complex>)
    requires k < 2
    ensures |r| == |eigenvalues|
  {
    seq(|eigenvalues|, f requires 0 <= f < |eigenvalues| =>
      RefractiveIndex(sqrt, if k == 0 then eigenvalues[f].0 else eigenvalues[f].1))
  }

  /** Every index of a sequence has non-negative parts and squares to the
      folded eigenvalue it comes from. */
  lemma IndicesSquares(sqrt: real -> real, eigenvalues: seq<(Complex, Complex)>, k: nat)
    requires IsSqrt(sqrt) && k < 2
    ensures forall f | 0 <= f < |eigenvalues| ::
      var n := Indices(sqrt, eigenvalues, k)[f];
      && n.re >= 0.0 && n.im >= 0.0
      && Mul(n, n) == Folded(if k == 0 then eigenvalues[f].0 else eigenvalues[f].1)
  {
    forall f | 0 <= f < |eigenvalues|
      ensures var n := Indices(sqrt, eigenvalues, k)[f];
        n.re >= 0.0 && n.im >= 0.0 && Mul(n, n) == Folded(if k == 0 then eigenvalues[f].0 else eigenvalues[f].1)
    {
      RefractiveIndexSquares(sqrt, if k == 0 then eigenvalues[f].0 else eigenvalues[f].1);
    }
  }

  /** The two index sequences, swapped when n1[0] < n2[0] in numpy's complex
      ordering, so that the first one never starts below the second. */
  function OrderedIndices(sqrt: real -> real, eigenvalues: seq<(Complex, Complex)>): (r: (seq<Complex>, seq<Complex>))
    requires |eigenvalues| > 0
    ensures |r.0| == |r.1| == |eigenvalues|
    ensures || (r.0 == Indices(sqrt, eigenvalues, 0) && r.1 == Indices(sqrt, eigenvalues, 1))
            || (r.0 == Indices(sqrt, eigenvalues, 1) && r.1 == Indices(sqrt, eigenvalues, 0))
    ensures !Less(r.0[0], r.1[0])
  {
    var n1 := Indices(sqrt, eigenvalues, 0);
    var n2 := Indices(sqrt, eigenvalues, 1);
    if Less(n1[0], n2[0]) then (n2, n1) else (n1, n2)
  }

  /** The entry filling the seven unused tensor elements: numpy's NaN stored
      in a complex array. */
  const NaNEntry: CFloat := CFloat(NaN, Fin(0.0))

  /** A sequence of complex numbers as an array row. */
  function Row(ns: seq<Complex>): (r: seq<CFloat>)
    ensures |r| == |ns| && forall f | 0 <= f < |ns| :: r[f] == ToCFloat(ns[f])
  {
    seq(|ns|, f requires 0 <= f < |ns| => ToCFloat(ns[f]))
  }

  /** `np.nan` broadcast over a row of n entries. */
  function NaNRow(n: nat): (r: seq<CFloat>)
    ensures |r| == n && forall f | 0 <= f < n :: r[f] == NaNEntry
  {
    seq(n, f => NaNEntry)
  }

  /** The field returned for the index pair: n1 as element 11, n2 as element
      22, NaN in the other seven elements. */
  function IndexField(n1: seq<Complex>, n2: seq<Complex>): (r: Field)
    requires |n1| == |n2|
    ensures Shaped(r) && NumFreqs(r) == |n1|
    ensures forall f | 0 <= f < |n1| :: r[0][0][f] == ToCFloat(n1[f]) && r[1][1][f] == ToCFloat(n2[f])
    ensures forall i, j, f | 0 <= i < 3 && 0 <= j < 3 && 0 <= f < |n1| && !(i == j < 2) :: r[i][j][f] == NaNEntry
  {
    var n := |n1|;
    [[Row(n1), NaNRow(n), NaNRow(n)], [NaNRow(n), Row(n2), NaNRow(n)], [NaNRow(n), NaNRow(n), NaNRow(n)]]
  }

  /** `epsilonToRefractiveIndices`, given the two eigenvalues n² of the
      transverse inverse dielectric matrix at every frequency: the NaN guard,
      ValueError for a zero wavevector, IndexError when there is no frequency
      (n1[0] does not exist), otherwise the ordered index pair as elements 11
      and 22 and NaN elsewhere. */
  function RefractiveIndicesOf(sqrt: real -> real, qabs2: real, eigenvalues: seq<(Complex, Complex)>, eps: Field): (r: Result<Field>)
    requires Shaped(eps) && |eigenvalues| == NumFreqs(eps)
    ensures HasNaN(eps) ==> r == Raise(ValueError)
    ensures !HasNaN(eps) && qabs2 < ZeroThreshold ==> r == Raise(ValueError)
    ensures !HasNaN(eps) && qabs2 >= ZeroThreshold && |eigenvalues| == 0 ==> r == Raise(IndexError)
    ensures r.Ok? <==> !HasNaN(eps) && qabs2 >= ZeroThreshold && |eigenvalues| > 0
    ensures r.Ok? ==> r.value == IndexField(OrderedIndices(sqrt, eigenvalues).0, OrderedIndices(sqrt, eigenvalues).1)
  {
    var _ :- CheckForNan(eps);
    if qabs2 < ZeroThreshold then Raise(ValueError)
    else if |eigenvalues| == 0 then Raise(IndexError)
    else
      var (n1, n2) := OrderedIndices(sqrt, eigenvalues);
      Ok(IndexField(n1, n2))
  }

  // ---------------------------------------------------------------------
  // Conversions by name

  /** The four conversions a converter offers. */
  datatype Conversion = LongitudinalPartConversion | SigmaToEpsilonConversion | EpsilonToSigmaConversion | EpsilonToRefractiveIndicesConversion

  /** The method name under which each conversion is looked up. */
  function ConversionName(c: Conversion): string
  {
    match c
    case LongitudinalPartConversion => "longitudinalPart"
    case SigmaToEpsilonConversion => "sigmaToEpsilon"
    case EpsilonToSigmaConversion => "epsilonToSigma"
    case EpsilonToRefractiveIndicesConversion => "epsilonToRefractiveIndices"
  }

  /** The method names of the four conversions. */
  const ConverterNames: set<string> := {"longitudinalPart", "sigmaToEpsilon", "epsilonToSigma", "epsilonToRefractiveIndices"}

  /** `getConverter(name)`: the conversion with that method name, and
      AttributeError for any other name. */
  function GetConverter(name: string): (r: Result<Conversion>)
    ensures r.Ok? <==> name in ConverterNames
    ensures r.Ok? ==> ConversionName(r.value) == name
    ensures r.Raise? ==> r.exc == AttributeError
  {
    if name == "longitudinalPart" then Ok(LongitudinalPartConversion)
    else if name == "sigmaToEpsilon" then Ok(SigmaToEpsilonConversion)
    else if name == "epsilonToSigma" then Ok(EpsilonToSigmaConversion)
    else if name == "epsilonToRefractiveIndices" then Ok(EpsilonToRefractiveIndicesConversion)
    else Raise(AttributeError)
  }

  /** Looking a conversion up by its own name finds it. */
  lemma GetConverterByName(c: Conversion)
    ensures GetConverter(ConversionName(c)) == Ok(c)
  {
  }

  // ---------------------------------------------------------------------
  // The converter object

  /** The loop of `_buildMembers` for a zero wavevector or the optical
      limit: identity ESG and inverse at every frequency. */
  method IdentityEsgs(n: nat) returns (esg: seq<CMat>, esgInv: seq<CMat>)
    ensures esg == Identities(n) && esgInv == Identities(n)
  {
    esg := seq(n, f => CZero());
    esgInv := seq(n, f => CZero());
    for idx := 0 to n
      invariant |esg| == |esgInv| == n
      invariant forall f | 0 <= f < idx :: esg[f] == CId() && esgInv[f] == CId()
    {
      esg := esg[idx := CId()];
      esgInv := esgInv[idx := CId()];
    }
  }

  /** The loop of `_buildMembers` in the general branch: pL + p pT and
      pL + (1/p) pT with p = 1 / (1 - fac) at every frequency. */
  method GeneralEsgs(pL: RMat, pT: RMat, qabs2: real, rfreqs: seq<Complex>) returns (esg: seq<CMat>, esgInv: seq<CMat>)
    requires forall f | 0 <= f < |rfreqs| :: Regular(qabs2, rfreqs[f])
    ensures |esg| == |esgInv| == |rfreqs|
    ensures forall f | 0 <= f < |rfreqs| ::
      esg[f] == Esg(pL, pT, Pre(qabs2, rfreqs[f])) && esgInv[f] == Esg(pL, pT, Inv(Pre(qabs2, rfreqs[f])))
  {
    var n := |rfreqs|;
    var pre := seq(n, f requires 0 <= f < n => Pre(qabs2, rfreqs[f]));
    esg := seq(n, f => CZero());
    esgInv := seq(n, f => CZero());
    for idx := 0 to n
      invariant |esg| == |esgInv| == n
      invariant forall f | 0 <= f < idx ::
        esg[f] == Esg(pL, pT, pre[f]) && esgInv[f] == Esg(pL, pT, Inv(pre[f]))
    {
      var p := pre[idx];
      esg := esg[idx := Esg(pL, pT, p)];
      esgInv := esgInv[idx := Esg(pL, pT, Inv(p))];
    }
  }

  /** The frequency loop of `epsilonToRefractiveIndices`: the index of each
      of the two eigenvalues at every frequency. */
  method IndexPairs(sqrt: real -> real, eigenvalues: seq<(Complex, Complex)>) returns (n1: seq<Complex>, n2: seq<Complex>)
    ensures n1 == Indices(sqrt, eigenvalues, 0) && n2 == Indices(sqrt, eigenvalues, 1)
  {
    var n := |eigenvalues|;
    n1 := seq(n, f => Zero);
    n2 := seq(n, f => Zero);
    for iw := 0 to n
      invariant |n1| == |n2| == n
      invariant forall f | 0 <= f < iw :: n1[f] == Indices(sqrt, eigenvalues, 0)[f] && n2[f] == Indices(sqrt, eigenvalues, 1)[f]
    {
      var (e1, e2) := eigenvalues[iw];
      n1 := n1[iw := Complex(sqrt(0.5 * (Abs(sqrt, e1) + e1.re)), sqrt(0.5 * (Abs(sqrt, e1) - e1.re)))];
      n2 := n2[iw := Complex(sqrt(0.5 * (Abs(sqrt, e2) + e2.re)), sqrt(0.5 * (Abs(sqrt, e2) - e2.re)))];
    }
  }

  /** The element loop of `epsilonToRefractiveIndices`: rows 11 and 22 get
      n1 and n2, the seven others NaN, in row-major order over a field of
      the right shape. */
  method FillIndexField(t: Field, n1: seq<Complex>, n2: seq<Complex>) returns (refInd: Field)
    requires Shaped(t) && |n1| == |n2| == NumFreqs(t)
    ensures refInd == IndexField(n1, n2)
  {
    refInd := t;
    for k := 0 to 9
      invariant Shaped(refInd) && NumFreqs(refInd) == |n1|
      invariant forall a, b | 0 <= a < 3 && 0 <= b < 3 && 3 * a + b < k :: refInd[a][b] == IndexField(n1, n2)[a][b]
    {
      var i, j := k / 3, k % 3;
      if k == 0 {
        refInd := PutRow(refInd, i, j, Row(n1));
      } else if k == 4 {
        refInd := PutRow(refInd, i, j, Row(n2));
      } else {
        refInd := PutRow(refInd, i, j, NaNRow(|n1|));
      }
    }
    assert forall a | 0 <= a < 3 :: refInd[a] == IndexField(n1, n2)[a];
  }

  /** The body of `_buildMembers` once the object is initialized: |q|², |q|,
      the regularized frequencies, then the projectors and ESGs of the
      branch the wavevector and the optical-limit flag select. */
  method ComputeMembers(sqrt: real -> real, q: Vec3, freqs: seq<real>, eta: real, opticalLimit: bool, reg: string)
    returns (m: Members)
    requires Admissible(sqrt, q, freqs, eta, opticalLimit, reg)
    ensures m == Derive(sqrt, q, freqs, eta, opticalLimit, reg)
  {
    var qabs2 := Norm2(q);
    var qabs := sqrt(qabs2);
    var rfreqs := RegularizedFrequencies(sqrt, freqs, eta, reg);
    var pL, pT, esg, esgInv;
    if qabs2 < ZeroThreshold {
      pL, pT := None, None;
      esg, esgInv := IdentityEsgs(|freqs|);
    } else if opticalLimit {
      var ops := ProjectionOperators(q);
      pL, pT := Some(ops.value.0), Some(ops.value.1);
      esg, esgInv := IdentityEsgs(|freqs|);
    } else {
      var ops := ProjectionOperators(q);
      pL, pT := Some(ops.value.0), Some(ops.value.1);
      esg, esgInv := GeneralEsgs(ops.value.0, ops.value.1, qabs2, rfreqs);
    }
    m := Members(qabs2, qabs, rfreqs, pL, pT, esg, esgInv);
  }

  /** A `Converter`: its inputs (q, frequencies in Hartree, η, optical-limit
      flag, regularization) and the members `_buildMembers` derives from them,
      rebuilt by every setter once the object is initialized. */
  class Converter {
    /** numpy's `sqrt`. */
    const sqrt: real -> real

    var initialized: bool
    var q: Vec3
    var freqs: seq<real>
    var numfreqs: nat
    var eta: real
    var opticalLimit: bool
    var regularization: string

    var qabs2: real
    var qabs: real
    var rfreqs: seq<Complex>
    var pL: Option<RMat>
    var pT: Option<RMat>
    var esg: seq<CMat>
    var esgInv: seq<CMat>

    /** The derived members as they stand. */
    function Current(): Members
      reads this`qabs2, this`qabs, this`rfreqs, this`pL, this`pT, this`esg, this`esgInv
    {
      Members(qabs2, qabs, rfreqs, pL, pT, esg, esgInv)
    }

    /** Inputs the derived members can be built from. */
    predicate Buildable()
      reads this`numfreqs, this`freqs, this`q, this`eta, this`opticalLimit, this`regularization
    {
      numfreqs == |freqs| && Admissible(sqrt, q, freqs, eta, opticalLimit, regularization)
    }

    /** An initialized converter whose derived sequences all have one entry
      per frequency: what the conversions rely on. */
    predicate Ready()
      reads this
    {
      initialized && |rfreqs| == |esg| == |esgInv| == numfreqs
    }

    /** An initialized converter whose derived members are those of its inputs. */
    predicate Valid()
      reads this
    {
      Ready() && Buildable() && Current() == Derive(sqrt, q, freqs, eta, opticalLimit, regularization)
    }

    /** The object as `__init__` finds it before the first setter runs. */
    constructor Uninitialized(sqrt: real -> real)
      ensures this.sqrt == sqrt && !initialized
      ensures freqs == [] && numfreqs == 0
    {
      this.sqrt := sqrt;
      initialized := false;
      q := [0.0, 0.0, 0.0];
      freqs := [];
      numfreqs := 0;
      eta := 0.0;
      opticalLimit := false;
      regularization := "conv";
      qabs2 := 0.0;
      qabs := 0.0;
      rfreqs := [];
      pL := None;
      pT := None;
      esg := [];
      esgInv := [];
    }

    /** `_buildMembers`: nothing before initialization, otherwise the derived
      members of the current inputs. */
    method BuildMembers()
      requires initialized ==> Buildable()
      modifies this
      ensures initialized == old(initialized) && q == old(q) && freqs == old(freqs) && numfreqs == old(numfreqs)
      ensures eta == old(eta) && opticalLimit == old(opticalLimit) && regularization == old(regularization)
      ensures initialized ==> Valid()
      ensures !initialized ==> Current() == old(Current())
    {
      if !initialized {
        return;
      }
      var m := ComputeMembers(sqrt, q, freqs, eta, opticalLimit, regularization);
      Store(m);
    }

    /** Stores members derived from the current inputs. */
    method Store(m: Members)
      modifies this`qabs2, this`qabs, this`rfreqs, this`pL, this`pT, this`esg, this`esgInv
      ensures Current() == m
    {
      qabs2, qabs, rfreqs, pL, pT, esg, esgInv := m.qabs2, m.qabs, m.rfreqs, m.pL, m.pT, m.esg, m.esgInv;
    }

    /** The `q` setter. */
    method SetQ(q: Vec3)
      requires initialized ==> numfreqs == |freqs| && Admissible(sqrt, q, freqs, eta, opticalLimit, regularization)
      modifies this
      ensures this.q == q
      ensures initialized == old(initialized) && freqs == old(freqs) && numfreqs == old(numfreqs)
      ensures eta == old(eta) && opticalLimit == old(opticalLimit) && regularization == old(regularization)
      ensures initialized ==> Valid()
      ensures !initialized ==> Current() == old(Current())
    {
      this.q := q;
      BuildMembers();
    }

    /** The `freqs` setter: frequencies given in eV are stored in Hartree. */
    method SetFreqs(freqsEv: seq<real>)
      requires initialized ==> Admissible(sqrt, q, ToHartree(freqsEv), eta, opticalLimit, regularization)
      modifies this
      ensures freqs == ToHartree(freqsEv) && numfreqs == |freqsEv|
      ensures initialized == old(initialized) && q == old(q)
      ensures eta == old(eta) && opticalLimit == old(opticalLimit) && regularization == old(regularization)
      ensures initialized ==> Valid()
      ensures !initialized ==> Current() == old(Current())
    {
      freqs := ToHartree(freqsEv);
      numfreqs := |freqsEv|;
      BuildMembers();
    }

    /** The `eta` setter. */
    method SetEta(eta: real)
      requires initialized ==> numfreqs == |freqs| && Admissible(sqrt, q, freqs, eta, opticalLimit, regularization)
      modifies this
      ensures this.eta == eta
      ensures initialized == old(initialized) && q == old(q) && freqs == old(freqs) && numfreqs == old(numfreqs)
      ensures opticalLimit == old(opticalLimit) && regularization == old(regularization)
      ensures initialized ==> Valid()
      ensures !initialized ==> Current() == old(Current())
    {
      this.eta := eta;
      BuildMembers();
    }

    /** The `opticalLimit` setter: only a value of type bool is accepted;
      anything else raises TypeError and leaves the object as it was. */
    method SetOpticalLimit(b: Value) returns (r: Result<()>)
      requires initialized && b.Bool? ==> numfreqs == |freqs| && Admissible(sqrt, q, freqs, eta, b.b, regularization)
      modifies this
      ensures r.Raise? <==> !b.Bool?
      ensures r.Raise? ==> r.exc == TypeError && unchanged(this)
      ensures r.Ok? ==> opticalLimit == b.b
      ensures initialized == old(initialized) && q == old(q) && freqs == old(freqs) && numfreqs == old(numfreqs)
      ensures eta == old(eta) && regularization == old(regularization)
      ensures r.Ok? && initialized ==> Valid()
      ensures r.Ok? && !initialized ==> Current() == old(Current())
    {
      if !b.Bool? {
        return Raise(TypeError);
      }
      opticalLimit := b.b;
      BuildMembers();
      return Ok(());
    }

    /** The `regularization` setter: only "conv" and "imp" are accepted;
      anything else raises ValueError and leaves the object as it was. */
    method SetRegularization(reg: string) returns (r: Result<()>)
      requires initialized && IsRegularization(reg) ==> numfreqs == |freqs| && Admissible(sqrt, q, freqs, eta, opticalLimit, reg)
      modifies this
      ensures r.Raise? <==> !IsRegularization(reg)
      ensures r.Raise? ==> r.exc == ValueError && unchanged(this)
      ensures r.Ok? ==> regularization == reg
      ensures initialized == old(initialized) && q == old(q) && freqs == old(freqs) && numfreqs == old(numfreqs)
      ensures eta == old(eta) && opticalLimit == old(opticalLimit)
      ensures r.Ok? && initialized ==> Valid()
      ensures r.Ok? && !initialized ==> Current() == old(Current())
    {
      if !(reg == "imp" || reg == "conv") {
        return Raise(ValueError);
      }
      regularization := reg;
      BuildMembers();
      return Ok(());
    }

    /** The last two statements of `__init__`: mark the object initialized
      and build its members. */
    method Initialize()
      requires !initialized && Buildable()
      modifies this
      ensures Valid()
      ensures q == old(q) && freqs == old(freqs) && numfreqs == old(numfreqs)
      ensures eta == old(eta) && opticalLimit == old(opticalLimit) && regularization == old(regularization)
    {
      initialized := true;
      BuildMembers();
    }

    /** `Converter(q, freqs, eta, opticalLimit, reg)`: the setters run in
      order, so a non-bool optical-limit flag raises TypeError before a bad
      regularization raises ValueError. */
    static method New(sqrt: real -> real, q: Vec3, freqsEv: seq<real>, eta: real, opticalLimit: Value, reg: string)
      returns (r: Result<Converter>)
      requires opticalLimit.Bool? && IsRegularization(reg) ==> Admissible(sqrt, q, ToHartree(freqsEv), eta, opticalLimit.b, reg)
      ensures !opticalLimit.Bool? ==> r == Raise(TypeError)
      ensures opticalLimit.Bool? && !IsRegularization(reg) ==> r == Raise(ValueError)
      ensures r.Ok? <==> opticalLimit.Bool? && IsRegularization(reg)
      ensures r.Ok? ==> fresh(r.value) && r.value.Valid() && r.value.sqrt == sqrt
      ensures r.Ok? ==> r.value.q == q && r.value.freqs == ToHartree(freqsEv) && r.value.numfreqs == |freqsEv|
      ensures r.Ok? ==> r.value.eta == eta && r.value.opticalLimit == opticalLimit.b && r.value.regularization == reg
    {
      var c := new Converter.Uninitialized(sqrt);
      c.SetQ(q);
      c.SetFreqs(freqsEv);
      c.SetEta(eta);
      var ok := c.SetOpticalLimit(opticalLimit);
      if ok.Raise? {
        return Raise(ok.exc);
      }
      ok := c.SetRegularization(reg);
      if ok.Raise? {
        return Raise(ok.exc);
      }
      c.Initialize();
      return Ok(c);
    }

    /** `sigmaToEpsilon` on this converter. */
    method SigmaToEpsilon(sigma: Field) returns (r: Result<Field>)
      requires Ready() && Shaped(sigma) && NumFreqs(sigma) == numfreqs
      ensures r == SigmaToEpsilonOf(esg, rfreqs, sigma)
    {
      var checked := CheckForNan(sigma);
      if checked.Raise? {
        return Raise(checked.exc);
      }
      var eps := sigma;
      for idx := 0 to numfreqs
        invariant Shaped(eps) && NumFreqs(eps) == numfreqs
        invariant forall f | 0 <= f < idx :: rfreqs[f] != Zero
        invariant forall i, j, f | 0 <= i < 3 && 0 <= j < 3 && 0 <= f < idx ::
                    eps[i][j][f] == ToCFloat(SigmaToEpsilonAt(esg[f], rfreqs[f], Slice(sigma, f))[i][j])
      {
        var w := rfreqs[idx];
        if w == Zero {
          return Raise(FloatingPointError);
        }
        eps := Put(eps, idx, SigmaToEpsilonAt(esg[idx], w, Slice(sigma, idx)));
      }
      FieldEq(eps, FieldOf(SigmaToEpsilonSlices(esg, rfreqs, sigma)));
      return Ok(eps);
    }

    /** `epsilonToSigma` on this converter. */
    method EpsilonToSigma(eps: Field) returns (r: Result<Field>)
      requires Ready() && Shaped(eps) && NumFreqs(eps) == numfreqs
      ensures r == EpsilonToSigmaOf(esgInv, rfreqs, eps)
    {
      var checked := CheckForNan(eps);
      if checked.Raise? {
        return Raise(checked.exc);
      }
      var sig := eps;
      for idx := 0 to numfreqs
        invariant Shaped(sig) && NumFreqs(sig) == numfreqs
        invariant forall i, j, f | 0 <= i < 3 && 0 <= j < 3 && 0 <= f < idx ::
                    sig[i][j][f] == ToCFloat(EpsilonToSigmaAt(esgInv[f], rfreqs[f], Slice(eps, f))[i][j])
      {
        var w := rfreqs[idx];
        var pre := EpsilonFactor(w);
        var tmp := CScale(pre, CSub(CId(), Slice(eps, idx)));
        sig := Put(sig, idx, CMul(esgInv[idx], tmp));
      }
      FieldEq(sig, FieldOf(EpsilonToSigmaSlices(esgInv, rfreqs, eps)));
      return Ok(sig);
    }

    /** `epsilonToRefractiveIndices` on this converter, given the two
      eigenvalues of the transverse inverse dielectric matrix at each frequency. */
    method EpsilonToRefractiveIndices(eps: Field, eigenvalues: seq<(Complex, Complex)>) returns (r: Result<Field>)
      requires Ready() && Shaped(eps) && NumFreqs(eps) == numfreqs && |eigenvalues| == numfreqs
      ensures r == RefractiveIndicesOf(sqrt, qabs2, eigenvalues, eps)
    {
      var checked := CheckForNan(eps);
      if checked.Raise? {
        return Raise(checked.exc);
      }
      if qabs2 < 0.0000000001 {
        return Raise(ValueError);
      }
      var n1, n2 := IndexPairs(sqrt, eigenvalues);
      if numfreqs == 0 {
        return Raise(IndexError);
      }
      if Less(n1[0], n2[0]) {
        n1, n2 := n2, n1;
      }
      var refInd := FillIndexField(eps, n1, n2);
      return Ok(refInd);
    }
  }
}
