# Monte Carlo integration of e^-x: a Dafny model

The application estimates the integral of e^-x over [0, 1] by Monte Carlo
sampling. It keeps running state, so each "cycle" of `guesses` random points
refines the estimate left by the previous cycles instead of starting over.
Each cycle:

- classifies its points as under the curve (`y < f(x)`, strict) or not, in draw order;
- adds the number under the curve to the running accepted count `totalIntegral`;
- adds the cycle size to the running guess count `totalGuesses`;
- sets the estimate `integral` to `totalIntegral / totalGuesses` times the area of the unit square.

The points are also kept for display. They are appended to the buffers
`insideData` and `outsideData` only when the running guess count before the
cycle is below 500001, or when this is the first cycle. Each cycle's list is
first cut to its first 750001 entries. The view's reset command zeroes the
counts, empties the buffers and re-arms the first-cycle flag.

Files:

- `bounding_box.dfy` (module `BoundingBox`): the calibration arithmetic, as pure functions over reals.
- `monte_carlo.dfy` (module `MonteCarlo`): the estimator.
  - The class `MonteCarloCircle` keeps the fields the source mutates. Its methods are proved against the value-level specification `Cycle`.
  - `SampleUnderCurve` is the sampling loop, proved against the filters `Inside` and `Outside`.
  - The lemmas state what a cycle, and a series of cycles, does to the state.
- `content_view.dfy` (module `View`): the reset command.
  - The class `ContentView` has `Clear`, which is proved against the value-level `Reset`.
  - Lemmas about resetting.

Inputs that the model takes as parameters:

- The random draws (`Double.random`) are an input sequence of points, one per guess. A cycle with a non-positive size gets no points.
- The integrand `exp(-x)` is the constant `f: real -> real` of the estimator. Nothing is assumed about it.
- Doubles are reals. The running accepted count is a `real`, as in the source, and it always holds a whole number.

Behaviour of the code worth noting:

- A cycle size of zero or less is not rejected. The sampling loop runs zero times, and the running guess count still changes by the (non-positive) size.
- The division that computes the estimate is not guarded. When the new running guess count is 0 the code divides by zero: NaN for 0/0, and plus or minus infinity otherwise. The model requires that count to be non-zero (`requires totalGuesses + guesses != 0`). Nothing else is excluded.
- A negative cycle size can take the estimate outside [0, 1]: 7 accepted out of 10 guesses followed by a cycle of -5 gives 7/5 (`MonteCarlo.NegativeCycleLeavesUnitInterval`). The [0, 1] bound holds for non-negative cycle sizes.
- A reset does not touch the estimate `integral`, nor the cycle size `guesses`. So a reset state equals a fresh estimator except in those two fields (`View.ResetIsFreshButForEstimate`).
- A reset sets the view's text fields to "23458", "0.0" and "". The last two differ from the view's initial values "0" and "0.0".
- The cap on each cycle's list is 750001 entries. A comment beside it speaks of 250,000 points, but the code uses 750001.

## Model

| member | source | states |
|---|---|---|
| BoundingBox.CalculateVolume | Shared/BoundingBox.swift:21-25 | with non-negative sides the volume is non-negative; a zero side gives volume 0 |
| BoundingBox.CalculateSurfaceArea | Shared/BoundingBox.swift:35-46 | any side count other than 2 or 6 silently gives 0; with non-negative sides the area is non-negative; a 2-sided area with a zero side is 0 |
| BoundingBox.SurfaceAreaExamples | Shared/BoundingBox.swift:21-46 | a 3 x 4 rectangle gives 12, a 2 x 3 x 4 box surface gives 52, 5 sides give 0, a 2 x 3 x 4 volume gives 24 |
| BoundingBox.BoxSurfaceIsSixFaces | Shared/BoundingBox.swift:38-41 | the 6-sided surface is twice the sum of the three 2-sided face areas; the 2-sided area ignores the third side |
| BoundingBox.VolumeIsBaseTimesHeight | Shared/BoundingBox.swift:21-25 | the volume is the 2-sided area of the first two sides times the third side |
| BoundingBox.SidesCommute | Shared/BoundingBox.swift:23 | the rectangle area is symmetric in its two sides; the box surface and the volume are unchanged under swapping any two sides |
| MonteCarlo.InsideOutsideCount | Shared/MonteCarloCircle.swift:94-100 | every draw lands in exactly one list: the two list lengths add up to the number of draws |
| MonteCarlo.DrawsArePartitioned | Shared/MonteCarloCircle.swift:94-100 | the two lists together are a permutation of the draws (multiset equality) |
| MonteCarlo.InsideOutsideMembership | Shared/MonteCarloCircle.swift:94-100 | a point is inside iff it was drawn and `y < f(x)`; it is outside iff it was drawn and not `y < f(x)` |
| MonteCarlo.InsideOutsideConcat | Shared/MonteCarloCircle.swift:85-103 | classification keeps draw order: the lists of two consecutive runs of draws are the concatenation of each run's lists |
| MonteCarlo.PointOnCurveIsOutside | Shared/MonteCarloCircle.swift:94 | a point exactly on the curve goes to the outside list |
| MonteCarlo.SampleUnderCurve | Shared/MonteCarloCircle.swift:85-105 | the loop's lists are exactly `Inside` and `Outside` of the draws; the count is the inside length; the two lengths add up to `maxGuesses`, or to 0 when `maxGuesses <= 0` |
| MonteCarlo.Cap | Shared/MonteCarloCircle.swift:111-120 | the capped list is a prefix of the list, at most 750001 long, exactly 750001 long when the list is longer, and the list itself otherwise |
| MonteCarlo.CycleAccumulates | Shared/MonteCarloCircle.swift:43-49 | a cycle adds `guesses` to the running guess count and the inside count to the running accepted count; `0 <= totalIntegral <= totalGuesses` is kept when `guesses >= 0` |
| MonteCarlo.CycleEstimateIsAcceptedFraction | Shared/MonteCarloCircle.swift:54 | with consistent counts and a positive new guess count, the estimate is the accepted fraction (the calibration factor is 1), so it lies in [0, 1] |
| MonteCarlo.FractionInUnitInterval | Shared/MonteCarloCircle.swift:54 | arithmetic helper for `CycleEstimateIsAcceptedFraction`: a part between zero and a positive whole gives a fraction in [0, 1] |
| MonteCarlo.NegativeCycleLeavesUnitInterval | Shared/MonteCarloCircle.swift:49-54 | a negative cycle size is added to the running guess count unchecked: from 7 accepted out of 10, a cycle of -5 gives the estimate 7/5, outside [0, 1] |
| MonteCarlo.CycleBuffers | Shared/MonteCarloCircle.swift:110-123 | the buffers only grow, at their ends, by at most 750001 points each; past the gate the capped lists are appended and the flag is cleared; otherwise buffers and flag are unchanged |
| MonteCarlo.CapSuppressesPlotting | Shared/MonteCarloCircle.swift:110 | past 500000 guesses on a non-first cycle no points are added, while the counts and the estimate still advance |
| MonteCarlo.FirstCycleAlwaysPlots | Shared/MonteCarloCircle.swift:110-122 | on a first cycle from empty buffers the buffers become the capped lists, at most 750001 points each, whatever the cycle size |
| MonteCarlo.RunsAccumulate | Shared/MonteCarloCircle.swift:43-54 | after any series of cycles, the running guess count has grown by the total draws and the accepted count by the total inside points; the counts stay consistent; old buffers are prefixes of new ones |
| MonteCarlo.MonteCarloCircle.constructor | Shared/MonteCarloCircle.swift:20-30 | a new estimator has empty buffers, zero counts and estimate, cycle size 1, and the first-cycle flag set |
| MonteCarlo.MonteCarloCircle.CalculateIntegral | Shared/MonteCarloCircle.swift:38-60 | the new state is `Cycle` of the old one; the totals grow by `guesses` and the inside count; the estimate is the new accepted fraction |
| MonteCarlo.MonteCarloCircle.CalculateMonteCarloIntegral | Shared/MonteCarloCircle.swift:68-125 | returns the inside count, which lies between 0 and the number of draws; buffers and flag change as `AfterSampling` says (the gate and the cap) |
| MonteCarlo.MonteCarloCircle.UpdateData | Shared/MonteCarloCircle.swift:137-141 | each buffer becomes its old contents followed by the given points: old buffers are prefixes and lengths grow by exactly the delta |
| View.ResetClearsRunningState | Shared/ContentView.swift:113-117 | after a reset the counts are zero, the buffers empty, the flag set, the counts consistent, and the estimate and cycle size unchanged |
| View.ResetIdempotent | Shared/ContentView.swift:108-120 | resetting twice equals resetting once |
| View.ResetIsFreshButForEstimate | Shared/ContentView.swift:108-120 | a reset state is a fresh estimator except for the kept estimate and cycle size |
| View.CycleAfterReset | Shared/ContentView.swift:117 | after a reset the next cycle passes the gate: the buffers are exactly that cycle's capped lists and the counts are that cycle's |
| View.ContentView.constructor | Shared/ContentView.swift:21-27 | a new view has the text fields "23458", "0" and "0.0" and a fresh estimator in its initial state |
| View.ContentView.Clear | Shared/ContentView.swift:108-120 | the three text fields are set to "23458", "0.0" and "" (the last two differ from the initial values); the estimator's state becomes `Reset` of the old one, with `integral` and `guesses` untouched |

## Left out

- The view's layout and body (Shared/ContentView.swift:30-88), and Shared/DrawingView.swift. These are rendering only.
- The view's run command (Shared/ContentView.swift:90-106). It parses the text fields into `guesses` and `totalGuesses` and writes strings back. The model lets a caller set `guesses` directly, and it does not model writing `totalGuesses` back from text.
- The assignment of `monteCarlo.radius` (Shared/ContentView.swift:94) is left out. The estimator declares no such property, and no circle test exists in this code.
- Concurrency and main-thread marshalling: `async`/`await`, `@MainActor`, `@Published`, `Task`. Also `setButtonEnable`, `updateTotalGuessesString`, `updateIntegralString` and the `print` of the estimate. The model runs a cycle as one sequential method.
- Randomness and the sampling window: `Double.random` and the bounds `downBnd`/`upBnd` only shape where points are drawn. The draws are an input instead. Distributions and convergence to 1 - e^-1 are not modelled.
- `computeExpMinusX` (`exp(-x)`) is left uninterpreted: it is the constant `f`.
- IEEE-754 behaviour: rounding, and the NaN or infinity of a division by zero. The division needs a non-zero running guess count instead.
- Integer width: Swift's `Int` is 64-bit and traps on overflow. The model's counters (`totalGuesses + guesses`, `pointsUnderCurve`, `numberOfGuesses`) are unbounded, so the trap past `Int.max` (reachable by typing a huge total guess count) is not modelled.
- MonteCarlo.MonteCarloCircle.CalculateIntegral: requires the new running guess count to be non-zero, where the code would publish NaN (0/0) or plus or minus infinity.
