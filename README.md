# Roche-potential solvers of a close binary

This project models the core of `Utils/Binary.py`: the solvers that find the shape of
a star filling part of its Roche lobe in a close binary.

The Roche potential is taken in the frame corotating with the orbit:
- the primary sits at the origin;
- the companion sits at (1, 0, 0);
- `q` is the mass ratio;
- `qp1by2om2` is the rotational coefficient.

The core consists of:

- **`Potential` and `Get_potential`.** Closed-form evaluators of the potential `psi`, its
  gradient, and the distances `rc` and `rx` to the two stars.
  `Get_potential` derives the coefficient from the rotation rate `omega`.
- **`Radius`.** A Newton search along one ray (direction cosines `cosx, cosy, cosz`) for
  the distance `r` at which the potential equals `psi0`. It has:
  - a positivity guard that halves `r` instead of stepping below zero;
  - a cap of 50 potential evaluations;
  - the sentinel `-99.99` when the cap is reached.
- **`Radii`.** The batch version: one independent search per ray, each starting from the
  same `r`, with the result written to `rout[i]`.
- **`Get_radius`.** One step of the ray search.
- **`Saddle`.** A Newton search on the line through both stars for the zero of
  `dpsi/dx` (the inner Lagrangian point). It repeats while `|dx/x| > 0.00001`, with no
  cap.
- **`Get_saddle`.** One step of the saddle search.

The model is written over Dafny's `real`. Three modelling choices apply throughout:

- **Square root.** The code's square root is a parameter `sqrt: real -> real`.
  Lemmas that need its meaning require `IsSqrt(sqrt)`.
- **Singular points.** Where the code divides by zero, the C and numpy code would produce
  an infinity or a NaN. The model has no value there: step functions return `None`, and
  the saddle search ends `Undefined`. The cases are `rc == 0`, `rx == 0`, `dpsidr == 0`,
  `d2psidx2 == 0`, and a new saddle iterate of zero.
- **A generic driver.** Both searches are specified by a driver over any step function:
  - for the ray, `RadiusSolver.SolveFrom`, into which `RayStep` plugs the Newton step of
    one ray;
  - for the axis, `SaddleSolver.SaddleFrom`, into which `AxialStep` plugs the axis step.

  This keeps the control properties separate from the numerics:
  - the cap, the guard and the sentinel for the ray search;
  - the lack of a cap for the saddle search.

  The methods `Radius`, `Radii` and `Saddle` are loops proved to compute that
  specification.

The docstring of `Potential` (`Utils/Binary.py:146`) describes the coefficient as
`(q+1)/(2*omega^2)`. The code of `Get_potential` and `Get_saddle` computes
`(q+1)/2*omega**2` (`Utils/Binary.py:57`, `78`). The model follows the code
(`RochePotential.Coefficient`). `RochePotential.CoefficientMatchesDocumentedIff` proves
that the two agree exactly when `omega^2 == 1`. This is the default rotation rate, and the
one the docstring examples use (`57./2` for `q = 56`).

Files:

| file | module | contents |
|---|---|---|
| `potential.dfy` | `RochePotential` | `Potential`, `GetPotential`, the coefficient, and the helper arithmetic lemmas |
| `radius.dfy` | `RadiusSolver` | the ray step, the generic capped driver, `Radius` and `Radii` |
| `saddle.dfy` | `SaddleSolver` | the axis step, the fuel-bounded driver, `Saddle` and `GetSaddle` |

## Model

| member | source | states |
|---|---|---|
| RochePotential.PotentialMirrorSymmetric | Utils/Binary.py:150-158 | the potential is defined at the mirror image `(x, -y, z)` of a regular point, and every field of the evaluation is the same there except `dpsidy`, which changes sign |
| RochePotential.PotentialWithoutCompanion | Utils/Binary.py:153 | with no companion (`q = 0`) the potential is the primary's `1/rc` plus the rotational term `qp1by2om2*(rc2 - z^2)` |
| RochePotential.GradientOnAxis | Utils/Binary.py:156-157 | on the axis `y = z = 0` the gradient components `dpsidy` and `dpsidz` are zero |
| RochePotential.RegularExactlyOffCentres | Utils/Binary.py:150-153 | with a true square root, the potential's divisions by `rc` and `rx` are defined exactly when the point is neither the primary's centre (0,0,0) nor the companion's (1,0,0) |
| RochePotential.Coefficient | Utils/Binary.py:57 | for every `omega != 0` the computed coefficient `(q+1)/2*omega^2` is the documented `(q+1)/(2 omega^2)` times `omega^4`, and at `omega^2 = 1` it is `(q+1)/2` |
| RochePotential.CoefficientMatchesDocumentedIff | Utils/Binary.py:146 | the documented coefficient `(q+1)/(2 omega^2)` equals the computed one if and only if `omega^2 = 1` (for `q != -1`) |
| RochePotential.GetPotentialIsPotential | Utils/Binary.py:56-66 | `Get_potential` returns, field by field, `Potential` with the coefficient `(q+1)/2*omega^2`, hence with `(q+1)/2` when `omega^2 = 1` |
| RadiusSolver.LoopSampleIsPotential | Utils/Binary.py:181-192 | the formulas inside the `Radius` loop, with `rx3 = rx*rx*rx` and `q*(1/rx3-1)`, compute exactly what `Potential` computes at `r*(cosx, cosy, cosz)` |
| RadiusSolver.RadialStep | Utils/Binary.py:181-194 | the Newton step `(psi-psi0)/dpsidr`, from the loop's own formulas, is defined only at a regular point, and it is zero exactly when the potential there already equals `psi0` |
| RadiusSolver.GetRadius | Utils/Binary.py:68-75 | the single-step helper returns the negation of the search's step at the same point, for the coefficient derived from `omega`, and is undefined exactly where that step is |
| RadiusSolver.Guarded | Utils/Binary.py:197-201 | the guarded update keeps a non-negative `r` non-negative, and only a halving of `r` can yield a negative value |
| RadiusSolver.SolveFrom | Utils/Binary.py:170-203 | from a non-negative iterate, the search ends undefined, with the sentinel, or with a non-negative radius |
| RadiusSolver.Iterate | Utils/Binary.py:197-201 | every iterate of the guarded Newton map from a non-negative start is non-negative |
| RadiusSolver.SolveAfterLargeSteps | Utils/Binary.py:173-202 | after `i` steps longer than the tolerance, the search stands at the `i`-th iterate with `i` evaluations spent |
| RadiusSolver.SolveCapped | Utils/Binary.py:174-179 | when all 50 allowed steps are longer than the tolerance, the result is the sentinel `-99.99` |
| RadiusSolver.SolveStopsAt | Utils/Binary.py:202-203 | when step `m < 50` is the first one no longer than the tolerance (or undefined), the result is the iterate after that step |
| RadiusSolver.SolveOutcome | Utils/Binary.py:173-203 | the search either takes 50 long steps, or returns the iterate after its first short (or undefined) step |
| RadiusSolver.SentinelIffCapped | Utils/Binary.py:174-179 | from `r >= 0`, the sentinel is returned if and only if all 50 steps were longer than the tolerance |
| RadiusSolver.Radius | Utils/Binary.py:170-203 | the loop evaluates the potential at most 50 times and returns the search's result; from `r >= 0` it returns a non-negative radius, the sentinel, or no value, and the sentinel exactly when the cap is hit |
| RadiusSolver.Radii | Utils/Binary.py:229-258 | the output has one entry per ray, and entry `i` is the single-ray search for ray `i` from the common start `r`, independent of every other lane |
| SaddleSolver.SaddleStep | Utils/Binary.py:291-297 | the step `-dpsidx/d2psidx2` with `rc = fabs(x)` is defined only where neither distance is zero, and it is zero exactly at a stationary point of the potential along the axis |
| SaddleSolver.SaddleFrom | Utils/Binary.py:290-299 | a converged saddle search ends on a non-zero iterate, the one its exit test divides by |
| SaddleSolver.AxialIterate | Utils/Binary.py:297-298 | every iterate after the first step `x := x + dx` is non-zero |
| SaddleSolver.SaddleAfterLargeSteps | Utils/Binary.py:290-299 | after `i` steps with a relative size above the tolerance, the search stands at the `i`-th iterate |
| SaddleSolver.SaddleStopsAt | Utils/Binary.py:299 | the search ends at its first small (or undefined) step, with that iterate, and the outcome is the same for any fuel beyond that step |
| SaddleSolver.SaddleUnfinishedIff | Utils/Binary.py:290-299 | a bounded run is unfinished if and only if every step it was allowed had a relative size above the tolerance: the loop has no cap of its own |
| SaddleSolver.SaddleFuelMonotone | Utils/Binary.py:290-299 | once a run ends within its fuel, any larger fuel gives the same outcome |
| SaddleSolver.FirstSmallStep | Utils/Binary.py:299 | if step `m` is small or undefined, the outcome with any fuel above `m` is the outcome with fuel `m + 1` |
| SaddleSolver.Saddle | Utils/Binary.py:289-300 | the loop computes the fuel-bounded search's outcome, runs out of fuel exactly when every step was large, and converges only on a non-zero `x` |
| SaddleSolver.AxisSlopeIsPotentialSlope | Utils/Binary.py:291-295 | with a true square root, the loop's distances are defined exactly where `Potential` is defined on the axis, and its `dpsidx` equals `Potential`'s `dpsidx` there |
| SaddleSolver.OnAxis | Utils/Binary.py:291-292 | on the axis, `sqrt(rc2)` is the absolute value of `x` and the companion distance is computed from `rc*rc+1-2x` |
| SaddleSolver.AxisSampleMatches | Utils/Binary.py:79-80 | at a regular axis point, `Get_potential`'s `dpsidx` and the curvature `Get_saddle` builds from it are the saddle loop's slope and curvature |
| SaddleSolver.GetSaddleIsSaddleStep | Utils/Binary.py:77-83 | with a true square root, `Get_saddle` takes the saddle search's step for the coefficient derived from `omega` and returns it relative to the new iterate, `dx/(x+dx)` |

## Left out

- Floating point: the model computes over exact reals. Rounding, and the accuracy of the converged radius or saddle point, are not modelled.
- Convergence to the true root is not modelled. Neither search is shown to reach a tolerance-sized step.
- Infinities and NaNs at singular points are not modelled; those cases end with no value. In C, an infinite or NaN `dr` or `dx/x` would let the loop continue or exit according to IEEE comparison rules.
- The square root is a parameter of every evaluator rather than the library function.
- SaddleSolver.Saddle: bounded by a `fuel` argument, because the code's loop has no cap and need not terminate. `Unfinished` stands for "still running after `fuel` steps", and `SaddleUnfinishedIff` and `SaddleFuelMonotone` relate it to the unbounded loop. The model also takes the start `x` to be a floating-point number; the code converts only `q` and `qp1by2om2` to float, so an integer start would make the compiled loop truncate every iterate, which is not modelled.
- RadiusSolver.Radii: each lane runs the single-ray search and stores its final result. The code's intermediate writes of each iterate into `rout(i)` are not modelled; they are invisible once the lane finishes. The model also requires `cosy` and `cosz` to be at least as long as `cosx`. The code reads `cosy(i)` and `cosz(i)` for every `i < cosx.size` without a bounds check, and shorter arrays are not modelled.
- The OpenMP parallelism of `Radii` is not modelled. Lanes share only read-only scalars, so the model's loop is sequential.
- The default arguments of `Get_radius` (`psi0`, `q`, `omega`) and of `Get_potential` and `Get_saddle` (`omega = 1`) are not modelled. Every argument is explicit here.
- The vectorised use of `Potential` and `Get_potential` on numpy arrays is not modelled. The model evaluates at one point.
- `Err_velocity` is not modelled: it is a parabola fit through an external polynomial fitter, plus plotting.
- `Get_K_to_q`, `Mass_companion`, `Mass_ratio` and `Orbital_separation` are not modelled: they are one-line float formulas with trigonometry, cube roots and external physical constants.
- The `scipy.weave.inline` compilation, the compiler-flag fallback, the operating-system check, the numpy conversions and the logging are not modelled: they are build and binding plumbing.
- `Photometry/__init__.py` is not part of this model; it only re-exports modules.
