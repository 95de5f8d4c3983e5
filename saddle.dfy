/** The saddle-point solver: a Newton search along the line through both
    stars (y = z = 0) for a zero of the x-derivative of the Roche potential,
    which between the stars is the inner Lagrangian point.

    The loop has no iteration cap: it repeats while the relative step
    |dx / x| exceeds TOL. The model bounds it with a `fuel` argument and
    reports `Unfinished` when the fuel runs out; the lemmas below show that
    the answer does not depend on the fuel once it is large enough. */
module SaddleSolver {
  import opened RochePotential

  /** The search stops once a step is no larger than this, relative to the
      new iterate. */
  const TOL: real := 0.00001

  /** How a bounded run of the saddle search ends. */
  datatype Outcome =
    | Converged(x: real)   // the loop exits with this iterate
    | Undefined            // the code divides by zero
    | Unfinished(x: real)  // the fuel ran out, the loop would go on from x

  /** The distance to the companion from x on the axis, as the loop
      computes it from rc = |x|. */
  function AxisRx(sqrt: real -> real, x: real): real {
    sqrt(Abs(x) * Abs(x) + 1.0 - 2.0 * x)
  }

  /** The first derivative of the potential along the axis at x. */
  function AxisSlope(sqrt: real -> real, q: real, qp1by2om2: real, x: real): real
    requires Abs(x) != 0.0 && AxisRx(sqrt, x) != 0.0
  {
    var rc, rx := Abs(x), AxisRx(sqrt, x);
    var dpsi := -1.0 / Cube(rc) - q / Cube(rx);
    x * (dpsi + 2.0 * qp1by2om2) + q * (1.0 / Cube(rx) - 1.0)
  }

  /** The second derivative of the potential along the axis at x. */
  function AxisCurvature(sqrt: real -> real, q: real, qp1by2om2: real, x: real): real
    requires Abs(x) != 0.0 && AxisRx(sqrt, x) != 0.0
  {
    var rc, rx := Abs(x), AxisRx(sqrt, x);
    var dpsi := -1.0 / Cube(rc) - q / Cube(rx);
    dpsi + 3.0 * (x * x / Pow5(rc) + q * (x - 1.0) * (x - 1.0) / Pow5(rx)) + 2.0 * qp1by2om2
  }

  /** The Newton step dx = -dpsidx / d2psidx2 at x on the axis; None where
      the code would divide by zero. */
  function SaddleStep(sqrt: real -> real, q: real, qp1by2om2: real, x: real): (dx: Option<real>)
    // a zero step is a stationary point of the potential along the axis
    ensures dx.Some? ==>
              Abs(x) != 0.0 && AxisRx(sqrt, x) != 0.0 &&
              (dx.value == 0.0 <==> AxisSlope(sqrt, q, qp1by2om2, x) == 0.0)
  {
    if Abs(x) == 0.0 || AxisRx(sqrt, x) == 0.0 then None
    else
      var dpsidx := AxisSlope(sqrt, q, qp1by2om2, x);
      var d2psidx2 := AxisCurvature(sqrt, q, qp1by2om2, x);
      if d2psidx2 == 0.0 then None
      else
        NegatedQuotient(dpsidx, d2psidx2);
        QuotientZeroIff(dpsidx, d2psidx2);
        Some(-dpsidx / d2psidx2)
  }

  /** The step function of the axis, as the generic search consumes it. */
  function AxialStep(sqrt: real -> real, q: real, qp1by2om2: real): real -> Option<real> {
    x => SaddleStep(sqrt, q, qp1by2om2, x)
  }

  /** The outcome of the search loop entered with iterate x after i of
      `fuel` steps: each step moves x by dx; the loop exits once
      |dx / x| <= TOL for the new x. */
  function SaddleFrom(step: real -> Option<real>, x: real, i: nat, fuel: nat): (res: Outcome)
    requires i <= fuel
    ensures res.Converged? ==> res.x != 0.0
    decreases fuel - i
  {
    if i == fuel then Unfinished(x)
    else match step(x)
      case None => Undefined
      case Some(dx) =>
        var next := x + dx;
        if next == 0.0 then Undefined
        else if Abs(dx / next) > TOL then SaddleFrom(step, next, i + 1, fuel)
        else Converged(next)
  }

  function SaddleSolve(step: real -> Option<real>, x0: real, fuel: nat): Outcome {
    SaddleFrom(step, x0, 0, fuel)
  }

  /** The n-th iterate x_n of the Newton map; None once a step is undefined
      or lands on zero. */
  function AxialIterate(step: real -> Option<real>, x0: real, n: nat): (it: Option<real>)
    ensures n > 0 && it.Some? ==> it.value != 0.0
  {
    if n == 0 then Some(x0)
    else match AxialIterate(step, x0, n - 1)
      case None => None
      case Some(x) =>
        match step(x)
        case None => None
        case Some(dx) => if x + dx == 0.0 then None else Some(x + dx)
  }

  /** The step from the j-th iterate is defined and large relative to the
      iterate it leads to, so the loop goes on. */
  predicate LargeAt(step: real -> Option<real>, x0: real, j: nat) {
    var it := AxialIterate(step, x0, j);
    it.Some? && step(it.value).Some? &&
    var dx := step(it.value).value;
    it.value + dx != 0.0 && Abs(dx / (it.value + dx)) > TOL
  }

  /** After i large steps the search is at the i-th iterate. */
  lemma {:induction false} SaddleAfterLargeSteps(step: real -> Option<real>, x0: real, fuel: nat, i: nat)
    requires i <= fuel
    requires forall j: nat :: j < i ==> LargeAt(step, x0, j)
    ensures AxialIterate(step, x0, i).Some?
    ensures SaddleSolve(step, x0, fuel) == SaddleFrom(step, AxialIterate(step, x0, i).value, i, fuel)
  {
    if i > 0 {
      SaddleAfterLargeSteps(step, x0, fuel, i - 1);
      assert LargeAt(step, x0, i - 1);
    }
  }

  /** The search stops at the first step that is undefined or small, and the
      outcome is then the same for any fuel beyond that step. */
  lemma SaddleStopsAt(step: real -> Option<real>, x0: real, fuel: nat, m: nat)
    requires m < fuel
    requires forall j: nat :: j < m ==> LargeAt(step, x0, j)
    requires !LargeAt(step, x0, m)
    ensures SaddleSolve(step, x0, fuel) == SaddleSolve(step, x0, m + 1)
    ensures SaddleSolve(step, x0, fuel) ==
              if AxialIterate(step, x0, m + 1).None? then Undefined
              else Converged(AxialIterate(step, x0, m + 1).value)
  {
    SaddleAfterLargeSteps(step, x0, fuel, m);
    SaddleAfterLargeSteps(step, x0, m + 1, m);
  }

  lemma {:induction false} UnfinishedOnlyWhenLargeFrom(step: real -> Option<real>, x0: real, fuel: nat, i: nat)
    requires i <= fuel
    requires forall j: nat :: j < i ==> LargeAt(step, x0, j)
    ensures SaddleSolve(step, x0, fuel).Unfinished? ==> forall j: nat :: j < fuel ==> LargeAt(step, x0, j)
    decreases fuel - i
  {
    if i < fuel {
      if LargeAt(step, x0, i) {
        UnfinishedOnlyWhenLargeFrom(step, x0, fuel, i + 1);
      } else {
        SaddleStopsAt(step, x0, fuel, i);
      }
    }
  }

  /** The fuel runs out exactly when every step it allows is large: the loop
      itself has no cap on the number of steps. */
  lemma SaddleUnfinishedIff(step: real -> Option<real>, x0: real, fuel: nat)
    ensures SaddleSolve(step, x0, fuel).Unfinished? <==> forall j: nat :: j < fuel ==> LargeAt(step, x0, j)
  {
    if forall j: nat :: j < fuel ==> LargeAt(step, x0, j) {
      SaddleAfterLargeSteps(step, x0, fuel, fuel);
    }
    UnfinishedOnlyWhenLargeFrom(step, x0, fuel, 0);
  }

  /** Once a run ends within its fuel, more fuel gives the same outcome. */
  lemma SaddleFuelMonotone(step: real -> Option<real>, x0: real, fuel: nat, more: nat)
    requires fuel <= more
    ensures !SaddleSolve(step, x0, fuel).Unfinished? ==> SaddleSolve(step, x0, more) == SaddleSolve(step, x0, fuel)
  {
    SaddleUnfinishedIff(step, x0, fuel);
    if !SaddleSolve(step, x0, fuel).Unfinished? {
      var m: nat :| m < fuel && !LargeAt(step, x0, m);
      FirstSmallStep(step, x0, m);
    }
  }

  /** A step that is not large has a first one. */
  lemma FirstSmallStep(step: real -> Option<real>, x0: real, m: nat)
    requires !LargeAt(step, x0, m)
    ensures forall fuel: nat :: m < fuel ==> SaddleSolve(step, x0, fuel) == SaddleSolve(step, x0, m + 1)
  {
    var k: nat := 0;
    while k < m && LargeAt(step, x0, k)
      invariant k <= m
      invariant forall j: nat :: j < k ==> LargeAt(step, x0, j)
    {
      k := k + 1;
    }
    forall fuel: nat | m < fuel
      ensures SaddleSolve(step, x0, fuel) == SaddleSolve(step, x0, m + 1)
    {
      SaddleStopsAt(step, x0, fuel, k);
      SaddleStopsAt(step, x0, m + 1, k);
    }
  }

  /** The saddle-point solver, bounded by `fuel` steps. */
  method Saddle(sqrt: real -> real, x0: real, q: real, qp1by2om2: real, fuel: nat) returns (result: Outcome)
    ensures result == SaddleSolve(AxialStep(sqrt, q, qp1by2om2), x0, fuel)
    ensures result.Unfinished? <==> forall j: nat :: j < fuel ==> LargeAt(AxialStep(sqrt, q, qp1by2om2), x0, j)
    ensures result.Converged? ==> result.x != 0.0
  {
    ghost var step := AxialStep(sqrt, q, qp1by2om2);
    var x := x0;
    var i := 0;
    var done := false;
    result := Unfinished(x0);
    while !done
      invariant i <= fuel
      invariant !done ==> SaddleFrom(step, x, i, fuel) == SaddleSolve(step, x0, fuel)
      invariant done ==> result == SaddleSolve(step, x0, fuel)
      decreases fuel - i, if done then 0 else 1
    {
      if i == fuel {
        result := Unfinished(x);
        done := true;
      } else {
        i := i + 1;
        var dx := SaddleStep(sqrt, q, qp1by2om2, x);
        if dx.None? {
          // the code divides by a zero distance or curvature here
          result := Undefined;
          done := true;
        } else {
          x := x + dx.value;
          if x == 0.0 {
            // the exit test divides by the new iterate
            result := Undefined;
            done := true;
          } else if Abs(dx.value / x) <= TOL {
            result := Converged(x);
            done := true;
          }
        }
      }
    }
    SaddleUnfinishedIff(step, x0, fuel);
  }

  /** Given a true square root, the loop's slope on the axis is the
      x-derivative of `Potential` there, so the search looks for a
      stationary point of the potential along the axis. */
  lemma AxisSlopeIsPotentialSlope(sqrt: real -> real, q: real, qp1by2om2: real, x: real)
    requires IsSqrt(sqrt)
    ensures Abs(x) != 0.0 && AxisRx(sqrt, x) != 0.0 <==> Regular(sqrt, x, 0.0, 0.0)
    ensures Regular(sqrt, x, 0.0, 0.0) ==>
              AxisSlope(sqrt, q, qp1by2om2, x) == Potential(sqrt, x, 0.0, 0.0, q, qp1by2om2).dpsidx
  {
    OnAxis(sqrt, x);
  }

  /** On the axis the distances of the saddle loop are those of `Potential`. */
  lemma OnAxis(sqrt: real -> real, x: real)
    requires IsSqrt(sqrt)
    ensures sqrt(Rc2(x, 0.0, 0.0)) == Abs(x)
    ensures Rx2(x, 0.0, 0.0) == Abs(x) * Abs(x) + 1.0 - 2.0 * x
  {
    SqrtOfSquare(sqrt, x);
    assert Rc2(x, 0.0, 0.0) == x * x;
    assert Abs(x) * Abs(x) == x * x;
  }

  /** The second x-derivative of the potential, from an evaluation of
      `Potential` on the axis, as the helper computes it. */
  function SampleCurvature(s: Sample, x: real, q: real, qp1by2om2: real): real
    requires s.rc != 0.0 && s.rx != 0.0
  {
    s.dpsi + 3.0 * (x * x / Pow5(s.rc) + q * (x - 1.0) * (x - 1.0) / Pow5(s.rx)) + 2.0 * qp1by2om2
  }

  /** The single-step helper: the relative step dx / (x + dx) from x, with
      the coefficient derived from the rotation rate omega. */
  function GetSaddle(sqrt: real -> real, x: real, q: real, omega: real): Option<real> {
    var qp1by2om2 := Coefficient(q, omega);
    if !Regular(sqrt, x, 0.0, 0.0) then None
    else
      var s := GetPotential(sqrt, x, 0.0, 0.0, q, omega);
      var d2psidx2 := SampleCurvature(s, x, q, qp1by2om2);
      if d2psidx2 == 0.0 then None
      else
        var dx := -s.dpsidx / d2psidx2;
        if x + dx == 0.0 then None else Some(dx / (x + dx))
  }

  /** Given a true square root, the helper takes the solver's step, for the
      coefficient the rotation rate omega gives, and reports it relative to
      the new iterate: the quantity the loop's exit test compares with TOL. */
  lemma GetSaddleIsSaddleStep(sqrt: real -> real, x: real, q: real, omega: real)
    requires IsSqrt(sqrt)
    ensures GetSaddle(sqrt, x, q, omega) ==
              match SaddleStep(sqrt, q, Coefficient(q, omega), x)
              case None => None
              case Some(dx) => if x + dx == 0.0 then None else Some(dx / (x + dx))
  {
    var k := Coefficient(q, omega);
    AxisSlopeIsPotentialSlope(sqrt, q, k, x);
    if Regular(sqrt, x, 0.0, 0.0) {
      AxisSampleMatches(sqrt, x, q, omega);
    }
  }

  lemma AxisSampleMatches(sqrt: real -> real, x: real, q: real, omega: real)
    requires IsSqrt(sqrt) && Regular(sqrt, x, 0.0, 0.0)
    ensures Abs(x) != 0.0 && AxisRx(sqrt, x) != 0.0
    ensures var s := GetPotential(sqrt, x, 0.0, 0.0, q, omega);
            var k := Coefficient(q, omega);
            s.dpsidx == AxisSlope(sqrt, q, k, x) &&
            SampleCurvature(s, x, q, k) == AxisCurvature(sqrt, q, k, x)
  {
    var k := Coefficient(q, omega);
    AxisSlopeIsPotentialSlope(sqrt, q, k, x);
    OnAxis(sqrt, x);
    var s := GetPotential(sqrt, x, 0.0, 0.0, q, omega);
    GetPotentialIsPotential(sqrt, x, 0.0, 0.0, q, omega);
    assert s == Potential(sqrt, x, 0.0, 0.0, q, k);
    assert s.rc == Abs(x) && s.rx == AxisRx(sqrt, x);
  }
}
