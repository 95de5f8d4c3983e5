/** The radius solver: along a ray from the primary's centre, a Newton search
    for the distance r at which the Roche potential equals a target psi0.

    The control skeleton of the search (a positivity guard, a cap of NMAX
    potential evaluations, a sentinel on failure) is specified by `SolveFrom`
    for ANY step function; `RayStep` plugs in the Roche step of one ray. The
    single-ray solver `Radius` and every lane of the batch solver `Radii` are
    proved to compute `Solve` of their own ray. */
module RadiusSolver {
  import opened RochePotential

  /** The most potential evaluations one search may make. */
  const NMAX: nat := 50
  /** The search stops once a Newton step is no longer than this. */
  const TOL: real := 0.00001
  /** The radius reported when NMAX steps did not converge. */
  const SENTINEL: real := -99.99

  /** The potential at r along the ray as the solver loops spell it out,
      with rx3 the cube of rx and the x-derivative's companion term written
      q * (1 / rx3 - 1). */
  function LoopSample(sqrt: real -> real, cosx: real, cosy: real, cosz: real, q: real, qp1by2om2: real, r: real): Sample
    requires Regular(sqrt, r * cosx, r * cosy, r * cosz)
  {
    var x := r * cosx;
    var y := r * cosy;
    var z := r * cosz;
    var rc2 := Rc2(x, y, z);
    var rc := sqrt(rc2);
    var rx := sqrt(Rx2(x, y, z));
    var rx3 := Cube(rx);
    var psi := 1.0 / rc + q / rx - q * x + qp1by2om2 * (rc2 - z * z);
    var dpsi := -1.0 / Cube(rc) - q / rx3;
    var dpsidx := x * (dpsi + 2.0 * qp1by2om2) + q * (1.0 / rx3 - 1.0);
    var dpsidy := y * (dpsi + 2.0 * qp1by2om2);
    var dpsidz := z * dpsi;
    Sample(rc, rx, dpsi, dpsidx, dpsidy, dpsidz, psi)
  }

  /** The loop's formulas compute the same quantities as `Potential` at the
      point r * (cosx, cosy, cosz). */
  lemma LoopSampleIsPotential(sqrt: real -> real, cosx: real, cosy: real, cosz: real, q: real, qp1by2om2: real, r: real)
    requires Regular(sqrt, r * cosx, r * cosy, r * cosz)
    ensures LoopSample(sqrt, cosx, cosy, cosz, q, qp1by2om2, r) == Potential(sqrt, r * cosx, r * cosy, r * cosz, q, qp1by2om2)
  {
  }

  /** The Newton step dr = (psi - psi0) / dpsidr at r along the ray, where
      dpsidr is the gradient projected on the ray; None where the code
      would divide by zero. */
  function RadialStep(sqrt: real -> real, cosx: real, cosy: real, cosz: real, psi0: real, q: real, qp1by2om2: real, r: real): (dr: Option<real>)
    ensures dr.Some? ==> Regular(sqrt, r * cosx, r * cosy, r * cosz)
    // a step of zero means r already lies on the target equipotential
    ensures dr.Some? ==>
              (dr.value == 0.0 <==> Potential(sqrt, r * cosx, r * cosy, r * cosz, q, qp1by2om2).psi == psi0)
  {
    if !Regular(sqrt, r * cosx, r * cosy, r * cosz) then None
    else
      var s := LoopSample(sqrt, cosx, cosy, cosz, q, qp1by2om2, r);
      var dpsidr := AlongRay(s, cosx, cosy, cosz);
      if dpsidr == 0.0 then None
      else
        LoopSampleIsPotential(sqrt, cosx, cosy, cosz, q, qp1by2om2, r);
        QuotientZeroIff(s.psi - psi0, dpsidr);
        Some((s.psi - psi0) / dpsidr)
  }

  /** The derivative of the potential along the ray: the gradient projected
      on the ray's direction cosines. */
  function AlongRay(s: Sample, cosx: real, cosy: real, cosz: real): real {
    s.dpsidx * cosx + s.dpsidy * cosy + s.dpsidz * cosz
  }

  /** The step function of one ray, as the generic driver consumes it. */
  function RayStep(sqrt: real -> real, cosx: real, cosy: real, cosz: real, psi0: real, q: real, qp1by2om2: real): real -> Option<real> {
    r => RadialStep(sqrt, cosx, cosy, cosz, psi0, q, qp1by2om2, r)
  }

  /** The single-step helper: the correction to add to r, with the
      rotational coefficient derived from the rotation rate omega. It is the
      solver's Newton step, negated. */
  function GetRadius(sqrt: real -> real, r: real, cosx: real, cosy: real, cosz: real,
                     psi0: real, q: real, omega: real): (dr: Option<real>)
    ensures dr == match RadialStep(sqrt, cosx, cosy, cosz, psi0, q, Coefficient(q, omega), r)
                  case None => None
                  case Some(step) => Some(-step)
  {
    var x := r * cosx;
    var y := r * cosy;
    var z := r * cosz;
    if !Regular(sqrt, x, y, z) then None
    else
      var s := GetPotential(sqrt, x, y, z, q, omega);
      GetPotentialIsPotential(sqrt, x, y, z, q, omega);
      LoopSampleIsPotential(sqrt, cosx, cosy, cosz, q, Coefficient(q, omega), r);
      var dpsidr := AlongRay(s, cosx, cosy, cosz);
      if dpsidr == 0.0 then None
      else
        NegatedQuotient(s.psi - psi0, dpsidr);
        Some(-(s.psi - psi0) / dpsidr)
  }

  /** One update of the iterate with the positivity guard: a step that would
      take r below zero halves r instead. */
  function Guarded(r: real, dr: real): (next: real)
    ensures 0.0 <= r ==> 0.0 <= next
    ensures next < 0.0 ==> next == 0.5 * r
  {
    if r - dr < 0.0 then 0.5 * r else r - dr
  }

  /** The result of the search loop entered with iterate r after i
      evaluations: the sentinel once NMAX evaluations are spent, None where a
      step is undefined, otherwise the iterate after the first step no
      longer than TOL. */
  function SolveFrom(step: real -> Option<real>, r: real, i: nat): (res: Option<real>)
    requires i <= NMAX
    ensures 0.0 <= r ==> res.None? || res.value == SENTINEL || 0.0 <= res.value
    decreases NMAX - i
  {
    if i == NMAX then Some(SENTINEL)
    else match step(r)
      case None => None
      case Some(dr) =>
        var next := Guarded(r, dr);
        if Abs(dr) > TOL then SolveFrom(step, next, i + 1) else Some(next)
  }

  function Solve(step: real -> Option<real>, r0: real): Option<real> {
    SolveFrom(step, r0, 0)
  }

  /** The n-th iterate of the guarded Newton map, regardless of step size;
      None once a step is undefined. */
  function Iterate(step: real -> Option<real>, r0: real, n: nat): (it: Option<real>)
    ensures 0.0 <= r0 && it.Some? ==> 0.0 <= it.value
  {
    if n == 0 then Some(r0)
    else match Iterate(step, r0, n - 1)
      case None => None
      case Some(r) =>
        match step(r)
        case None => None
        case Some(dr) => Some(Guarded(r, dr))
  }

  /** The step taken from the j-th iterate is defined and longer than TOL. */
  predicate LargeStepAt(step: real -> Option<real>, r0: real, j: nat) {
    var it := Iterate(step, r0, j);
    it.Some? && step(it.value).Some? && Abs(step(it.value).value) > TOL
  }

  /** All NMAX steps the search may take are defined and longer than TOL. */
  predicate Capped(step: real -> Option<real>, r0: real) {
    forall j: nat :: j < NMAX ==> LargeStepAt(step, r0, j)
  }

  /** After i long steps the search is at the i-th iterate with i evaluations
      spent. */
  lemma {:induction false} SolveAfterLargeSteps(step: real -> Option<real>, r0: real, i: nat)
    requires i <= NMAX
    requires forall j: nat :: j < i ==> LargeStepAt(step, r0, j)
    ensures Iterate(step, r0, i).Some?
    ensures Solve(step, r0) == SolveFrom(step, Iterate(step, r0, i).value, i)
  {
    if i > 0 {
      SolveAfterLargeSteps(step, r0, i - 1);
      assert LargeStepAt(step, r0, i - 1);
    }
  }

  /** NMAX long steps in a row end the search with the sentinel. */
  lemma SolveCapped(step: real -> Option<real>, r0: real)
    ensures Capped(step, r0) ==> Solve(step, r0) == Some(SENTINEL)
  {
    if Capped(step, r0) {
      SolveAfterLargeSteps(step, r0, NMAX);
    }
  }

  /** The search stops at the first step that is undefined or no longer than
      TOL, and returns the iterate that step leads to. */
  lemma SolveStopsAt(step: real -> Option<real>, r0: real, m: nat)
    requires m < NMAX
    requires forall j: nat :: j < m ==> LargeStepAt(step, r0, j)
    requires !LargeStepAt(step, r0, m)
    ensures Solve(step, r0) == Iterate(step, r0, m + 1)
  {
    SolveAfterLargeSteps(step, r0, m);
  }

  /** The search either takes NMAX long steps, or stops at a first step m
      that is undefined or no longer than TOL, with the iterate it leads to. */
  lemma {:induction false} SolveOutcome(step: real -> Option<real>, r0: real)
    ensures Capped(step, r0) ||
            exists m: nat :: m < NMAX && !LargeStepAt(step, r0, m) &&
                             (forall j: nat :: j < m ==> LargeStepAt(step, r0, j)) &&
                             Solve(step, r0) == Iterate(step, r0, m + 1)
  {
    if !Capped(step, r0) {
      var m: nat := 0;
      while m < NMAX && LargeStepAt(step, r0, m)
        invariant m <= NMAX
        invariant forall j: nat :: j < m ==> LargeStepAt(step, r0, j)
      {
        m := m + 1;
      }
      SolveStopsAt(step, r0, m);
    }
  }

  lemma {:induction false} SentinelOnlyWhenCappedFrom(step: real -> Option<real>, r0: real, i: nat)
    requires 0.0 <= r0 && i <= NMAX
    requires forall j: nat :: j < i ==> LargeStepAt(step, r0, j)
    ensures Solve(step, r0) == Some(SENTINEL) ==> Capped(step, r0)
    decreases NMAX - i
  {
    if i < NMAX {
      if LargeStepAt(step, r0, i) {
        SentinelOnlyWhenCappedFrom(step, r0, i + 1);
      } else {
        SolveStopsAt(step, r0, i);
      }
    }
  }

  /** From a non-negative start, the sentinel is returned exactly when all
      NMAX steps were longer than TOL. */
  lemma SentinelIffCapped(step: real -> Option<real>, r0: real)
    requires 0.0 <= r0
    ensures Solve(step, r0) == Some(SENTINEL) <==> Capped(step, r0)
  {
    SolveCapped(step, r0);
    SentinelOnlyWhenCappedFrom(step, r0, 0);
  }

  /** The single-ray solver: Newton's method along the ray from r0, at most
      NMAX evaluations, the sentinel if they are all spent. */
  method Radius(sqrt: real -> real, cosx: real, cosy: real, cosz: real,
                psi0: real, r0: real, q: real, qp1by2om2: real)
    returns (result: Option<real>, ghost evaluations: nat)
    ensures evaluations <= NMAX
    ensures result == Solve(RayStep(sqrt, cosx, cosy, cosz, psi0, q, qp1by2om2), r0)
    ensures 0.0 <= r0 ==> result.None? || result.value == SENTINEL || 0.0 <= result.value
    ensures 0.0 <= r0 ==>
              (result == Some(SENTINEL) <==> Capped(RayStep(sqrt, cosx, cosy, cosz, psi0, q, qp1by2om2), r0))
  {
    ghost var step := RayStep(sqrt, cosx, cosy, cosz, psi0, q, qp1by2om2);
    var r := r0;
    var i := 0;
    var done := false;
    result := None;
    evaluations := 0;
    while !done
      invariant i <= NMAX + 1
      invariant evaluations <= NMAX && (!done ==> evaluations == i)
      invariant !done ==> i <= NMAX && SolveFrom(step, r, i) == Solve(step, r0)
      invariant done ==> result == Solve(step, r0)
      decreases NMAX + 1 - i
    {
      i := i + 1;
      if i > NMAX {
        result := Some(SENTINEL);
        done := true;
      } else {
        var dr := RadialStep(sqrt, cosx, cosy, cosz, psi0, q, qp1by2om2, r);
        evaluations := evaluations + 1;
        if dr.None? {
          // the code divides by zero here
          result := None;
          done := true;
        } else {
          if r - dr.value < 0.0 {
            r := 0.5 * r;
          } else {
            r := r - dr.value;
          }
          if Abs(dr.value) <= TOL {
            result := Some(r);
            done := true;
          }
        }
      }
    }
    if 0.0 <= r0 {
      SentinelIffCapped(step, r0);
    }
  }

  /** The batch solver: one independent search per ray, every lane starting
      from the same r0; lane i runs the single-ray search and its result is
      stored in rout[i]. */
  method Radii(sqrt: real -> real, cosx: array<real>, cosy: array<real>, cosz: array<real>,
               psi0: real, r0: real, q: real, qp1by2om2: real) returns (rout: array<Option<real>>)
    requires cosx.Length <= cosy.Length && cosx.Length <= cosz.Length
    ensures fresh(rout) && rout.Length == cosx.Length
    ensures forall i :: 0 <= i < rout.Length ==>
              rout[i] == Solve(RayStep(sqrt, cosx[i], cosy[i], cosz[i], psi0, q, qp1by2om2), r0)
  {
    var n := cosx.Length;
    rout := new Option<real>[n](_ => None);
    ghost var solved: seq<Option<real>> := [];
    for i := 0 to n
      invariant solved == rout[..i]
      invariant forall j :: 0 <= j < i ==>
                  solved[j] == Solve(RayStep(sqrt, cosx[j], cosy[j], cosz[j], psi0, q, qp1by2om2), r0)
    {
      var lane;
      ghost var evaluations;
      lane, evaluations := Radius(sqrt, cosx[i], cosy[i], cosz[i], psi0, r0, q, qp1by2om2);
      rout[i] := lane;
      solved := solved + [lane];
      assert solved == rout[..i + 1];
    }
    assert rout[..] == solved;
  }
}
