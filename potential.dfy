/** The Roche potential of a close binary in the corotating frame: the primary
    sits at the origin, the companion at (1, 0, 0), and distances are in units
    of the orbital separation.

    The code evaluates square roots in floating point. Here the square root is
    a parameter `sqrt`; lemmas that need its meaning require `IsSqrt(sqrt)`.
    Where the code divides by zero (and floating point would produce an
    infinity or a NaN) the model has no value: evaluators require `Regular`,
    and the solvers report `None`. */
module RochePotential {

  datatype Option<T> = None | Some(value: T)

  function Abs(a: real): real {
    if a < 0.0 then -a else a
  }

  function Cube(a: real): (c: real)
    ensures a != 0.0 ==> c != 0.0
  {
    a * a * a
  }

  function Pow5(a: real): (p: real)
    ensures a != 0.0 ==> p != 0.0
  {
    assert a != 0.0 ==> a * a != 0.0;
    a * a * a * a * a
  }

  /** `sqrt` behaves as the square root on the non-negative reals. */
  ghost predicate IsSqrt(sqrt: real -> real) {
    forall a: real :: 0.0 <= a ==> 0.0 <= sqrt(a) && sqrt(a) * sqrt(a) == a
  }

  /** The squared distance from (x, y, z) to the primary. */
  function Rc2(x: real, y: real, z: real): real {
    x * x + y * y + z * z
  }

  /** The squared distance from (x, y, z) to the companion, as the code
      writes it: rc2 + 1 - 2x. */
  function Rx2(x: real, y: real, z: real): real {
    Rc2(x, y, z) + 1.0 - 2.0 * x
  }

  /** Neither distance the potential divides by is zero at (x, y, z). */
  predicate Regular(sqrt: real -> real, x: real, y: real, z: real) {
    sqrt(Rc2(x, y, z)) != 0.0 && sqrt(Rx2(x, y, z)) != 0.0
  }

  /** The quantities one evaluation of the potential yields: the distances to
      the primary (rc) and to the companion (rx), the shared factor dpsi of
      the first derivatives, the gradient and the potential psi. */
  datatype Sample = Sample(rc: real, rx: real, dpsi: real, dpsidx: real, dpsidy: real, dpsidz: real, psi: real)

  /** The potential and its gradient at (x, y, z), given the mass ratio q and
      the rotational coefficient qp1by2om2. */
  function Potential(sqrt: real -> real, x: real, y: real, z: real, q: real, qp1by2om2: real): Sample
    requires Regular(sqrt, x, y, z)
  {
    var rc2 := Rc2(x, y, z);
    var rx := sqrt(Rx2(x, y, z));
    var rc := sqrt(rc2);
    var psi := 1.0 / rc + q / rx - q * x + qp1by2om2 * (rc2 - z * z);
    var dpsi := -1.0 / Cube(rc) - q / Cube(rx);
    var dpsidx := x * (dpsi + 2.0 * qp1by2om2) + q * (-1.0 + 1.0 / Cube(rx));
    var dpsidy := y * (dpsi + 2.0 * qp1by2om2);
    var dpsidz := z * dpsi;
    Sample(rc, rx, dpsi, dpsidx, dpsidy, dpsidz, psi)
  }

  /** On the line through both stars the gradient points along that line. */
  lemma GradientOnAxis(sqrt: real -> real, x: real, q: real, qp1by2om2: real)
    requires Regular(sqrt, x, 0.0, 0.0)
    ensures Potential(sqrt, x, 0.0, 0.0, q, qp1by2om2).dpsidy == 0.0
    ensures Potential(sqrt, x, 0.0, 0.0, q, qp1by2om2).dpsidz == 0.0
  {
    var s := Potential(sqrt, x, 0.0, 0.0, q, qp1by2om2);
    assert s.dpsidy == 0.0 * (s.dpsi + 2.0 * qp1by2om2);
    assert s.dpsidz == 0.0 * s.dpsi;
  }

  /** The potential is symmetric under the reflection y -> -y through the
      plane holding the line of centres and the rotation axis: it is defined
      at the mirror point, where every field is unchanged except the
      y-derivative, which changes sign. */
  lemma PotentialMirrorSymmetric(sqrt: real -> real, x: real, y: real, z: real, q: real, qp1by2om2: real)
    requires Regular(sqrt, x, y, z)
    ensures Regular(sqrt, x, -y, z)
    ensures var s := Potential(sqrt, x, y, z, q, qp1by2om2);
            Potential(sqrt, x, -y, z, q, qp1by2om2) == s.(dpsidy := -s.dpsidy)
  {
    MirrorDistances(sqrt, x, y, z, q, qp1by2om2);
    var s, m := Potential(sqrt, x, y, z, q, qp1by2om2), Potential(sqrt, x, -y, z, q, qp1by2om2);
    var g := s.dpsi + 2.0 * qp1by2om2;
    assert m.dpsidx == s.dpsidx;
    assert m.dpsidy == -s.dpsidy by {
      assert m.dpsidy == (-y) * g;
      assert (-y) * g == -(y * g);
    }
    assert m.dpsidz == s.dpsidz;
  }

  /** The mirror image has the same distances, hence the same psi and dpsi. */
  lemma MirrorDistances(sqrt: real -> real, x: real, y: real, z: real, q: real, qp1by2om2: real)
    requires Regular(sqrt, x, y, z)
    ensures Regular(sqrt, x, -y, z)
    ensures var s, m := Potential(sqrt, x, y, z, q, qp1by2om2), Potential(sqrt, x, -y, z, q, qp1by2om2);
            m.rc == s.rc && m.rx == s.rx && m.psi == s.psi && m.dpsi == s.dpsi
  {
    assert Rc2(x, -y, z) == Rc2(x, y, z);
    assert Rx2(x, -y, z) == Rx2(x, y, z);
  }

  /** Without a companion (q = 0) the potential is that of the primary alone
      plus the rotational term. */
  lemma PotentialWithoutCompanion(sqrt: real -> real, x: real, y: real, z: real, qp1by2om2: real)
    requires Regular(sqrt, x, y, z)
    ensures var s := Potential(sqrt, x, y, z, 0.0, qp1by2om2);
            s.psi == 1.0 / s.rc + qp1by2om2 * (Rc2(x, y, z) - z * z)
  {
  }

  /** Given a true square root, the potential is defined exactly away from
      the two stellar centres. */
  lemma RegularExactlyOffCentres(sqrt: real -> real, x: real, y: real, z: real)
    requires IsSqrt(sqrt)
    ensures Regular(sqrt, x, y, z) <==>
              !(x == 0.0 && y == 0.0 && z == 0.0) && !(x == 1.0 && y == 0.0 && z == 0.0)
  {
    var a := Rc2(x, y, z);
    var b := Rx2(x, y, z);
    assert b == (x - 1.0) * (x - 1.0) + y * y + z * z;
    SumOfSquaresZero(x, y, z);
    SumOfSquaresZero(x - 1.0, y, z);
    SqrtZeroIff(sqrt, a);
    SqrtZeroIff(sqrt, b);
  }

  lemma ProductZero(a: real, b: real)
    requires a * b == 0.0
    ensures a == 0.0 || b == 0.0
  {
  }

  lemma SquareNonNegative(s: real)
    ensures 0.0 <= s * s
  {
  }

  lemma SqrtZeroIff(sqrt: real -> real, a: real)
    requires IsSqrt(sqrt) && 0.0 <= a
    ensures sqrt(a) == 0.0 <==> a == 0.0
  {
    var s := sqrt(a);
    assert s * s == a;
    if a == 0.0 {
      ProductZero(s, s);
    }
  }

  lemma SumOfSquaresZero(x: real, y: real, z: real)
    ensures 0.0 <= x * x + y * y + z * z
    ensures x * x + y * y + z * z == 0.0 <==> x == 0.0 && y == 0.0 && z == 0.0
  {
    SquareNonNegative(x);
    SquareNonNegative(y);
    SquareNonNegative(z);
    if x * x + y * y + z * z == 0.0 {
      ProductZero(x, x);
      ProductZero(y, y);
      ProductZero(z, z);
    }
  }

  lemma QuotientZeroIff(a: real, b: real)
    requires b != 0.0
    ensures a / b == 0.0 <==> a == 0.0
  {
    assert a / b * b == a;
  }

  lemma NegatedQuotient(a: real, b: real)
    requires b != 0.0
    ensures -a / b == -(a / b)
  {
    assert (-a / b) * b == -a;
    assert -(a / b) * b == -a;
  }

  /** The square root of a square is the absolute value. */
  lemma SqrtOfSquare(sqrt: real -> real, x: real)
    requires IsSqrt(sqrt)
    ensures sqrt(x * x) == Abs(x)
  {
    SquareNonNegative(x);
    var t, u := sqrt(x * x), Abs(x);
    assert t * t == x * x;
    assert u * u == x * x;
    assert (t - u) * (t + u) == t * t - u * u;
    ProductZero(t - u, t + u);
  }

  /** The rotational coefficient as the code computes it from q and the
      rotation rate omega (in units of the orbital frequency). */
  function Coefficient(q: real, omega: real): (c: real)
    ensures omega * omega == 1.0 ==> c == (q + 1.0) / 2.0
    // the code's coefficient is the documented one times omega^4
    ensures omega != 0.0 ==> c == DocumentedCoefficient(q, omega) * (omega * omega) * (omega * omega)
  {
    var w := omega * omega;
    assert omega != 0.0 ==> (q + 1.0) / 2.0 * w == DocumentedCoefficient(q, omega) * w * w by {
      if omega != 0.0 {
        if w == 0.0 {
          ProductZero(omega, omega);
        }
        calc {
          DocumentedCoefficient(q, omega) * w * w;
          (q + 1.0) / (2.0 * w) * w * w;
          (q + 1.0) / 2.0 * w;
        }
      }
    }
    (q + 1.0) / 2.0 * w
  }

  /** The coefficient as the documentation of `Potential` describes it. */
  function DocumentedCoefficient(q: real, omega: real): real
    requires omega != 0.0
  {
    (q + 1.0) / (2.0 * (omega * omega))
  }

  /** The documented and the computed coefficient agree only for a rotation
      rate of one orbital frequency. */
  lemma CoefficientMatchesDocumentedIff(q: real, omega: real)
    requires q != -1.0 && omega != 0.0
    ensures Coefficient(q, omega) == DocumentedCoefficient(q, omega) <==> omega * omega == 1.0
  {
    var a, w := q + 1.0, omega * omega;
    SquareNonNegative(omega);
    if w == 0.0 {
      ProductZero(omega, omega);
    }
    var c, d := Coefficient(q, omega), DocumentedCoefficient(q, omega);
    assert c - d == a * (w * w - 1.0) / (2.0 * w);
    assert (w - 1.0) * (w + 1.0) == w * w - 1.0;
    if c == d {
      assert a * (w * w - 1.0) == 0.0;
      ProductZero(a, w * w - 1.0);
      ProductZero(w - 1.0, w + 1.0);
    }
  }

  /** The convenience evaluator: the potential and its gradient at (x, y, z),
      with the coefficient derived from the rotation rate omega. */
  function GetPotential(sqrt: real -> real, x: real, y: real, z: real, q: real, omega: real): Sample
    requires Regular(sqrt, x, y, z)
  {
    var qp1by2om2 := Coefficient(q, omega);
    var rc2 := Rc2(x, y, z);
    var rx := sqrt(Rx2(x, y, z));
    var rc := sqrt(rc2);
    var psi := 1.0 / rc + q / rx - q * x + qp1by2om2 * (rc2 - z * z);
    var dpsi := -1.0 / Cube(rc) - q / Cube(rx);
    var dpsidx := x * (dpsi + 2.0 * qp1by2om2) + q * (-1.0 + 1.0 / Cube(rx));
    var dpsidy := y * (dpsi + 2.0 * qp1by2om2);
    var dpsidz := z * dpsi;
    Sample(rc, rx, dpsi, dpsidx, dpsidy, dpsidz, psi)
  }

  /** The convenience evaluator is `Potential` with the coefficient
      (q + 1) / 2 * omega^2 of `Coefficient`, which is (q + 1) / 2 at the default, synchronous
      rotation omega = 1. */
  lemma GetPotentialIsPotential(sqrt: real -> real, x: real, y: real, z: real, q: real, omega: real)
    requires Regular(sqrt, x, y, z)
    ensures GetPotential(sqrt, x, y, z, q, omega) == Potential(sqrt, x, y, z, q, Coefficient(q, omega))
    ensures omega * omega == 1.0 ==> GetPotential(sqrt, x, y, z, q, omega) == Potential(sqrt, x, y, z, q, (q + 1.0) / 2.0)
  {
  }
}
