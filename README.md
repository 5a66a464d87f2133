# Beam analysis engine — a Dafny model

This project models the analytical engine of a small beam-analysis web page, plus the
sampling step of its plotter.

- **The engine** (`js/beam-analysis.js`) builds three response functions for a beam under a
  uniformly distributed load: deflection, bending moment and shear force. It does this for
  two support conditions:
  - `simply-supported`: one span L;
  - `two-span-unequal`: spans L1 and L2, continuous over a middle support.
- **A response function** maps a position x in millimetres to a point. The point holds the
  position in metres and the value. Deflection is unscaled, moment is divided by 1,000,000
  (kN·m) and shear by 1,000 (kN). Positions outside the beam give the value 0.
- **The `BeamAnalysis` facade** looks the condition tag up in a two-entry registry. It either
  returns a bundle `{beam, load, equation}` or fails with `Invalid condition`.
- **The plotter's `generatePoints`** evaluates a bundle's equation at 101 evenly spaced
  positions, from 0 to (primarySpan + secondarySpan)·1000.

Modules, one per component:

- `Wrappers`: `Option` and `Result`.
- `Beams`: `Material`, `Beam`, `Point`, and the two unit conversions every response function
  applies (load normalisation, millimetres to metres).
- `SimplySupported` and `TwoSpanUnequal`: the two analyzers. Each closure body is a function of
  the beam, the load and the position x.
- `BeamAnalysis`: the registry, the `Analyzer` datatype whose builders return closures of type
  `real --> Point`, and the three dispatch functions.
- `AnalysisPlotter`: `GeneratePoints`, a method with the source's loop, and lemmas about the
  sampling positions.

Numbers are Dafny `real`, so there is no IEEE rounding, NaN or infinity. A closure's
precondition covers exactly the cases where its formula divides by zero or reads an absent
secondary span:
- `EI = 0`, for deflection at a position on the beam;
- `L1 + L2 = 0`, for the two-span functions at a position on the beam;
- an absent secondary span, for the two-span functions at every position.

The model follows the code as written, including where it departs from the textbook beam:
- **No zero-stiffness fallback.** The code divides by EI and has no branch for a zero or missing
  EI, so the deflection closures require EI ≠ 0 at positions on the beam. Moment and shear
  never read EI.
- **No default secondary span.** The two-span analyzer multiplies `secondarySpan` by 1000
  without a default, so the two-span functions require a secondary span. Only the plotter
  treats an absent one as 0 (`secondarySpan || 0`).
- **The load round trip is kept.** Every builder computes `load * 1000 / 1000`. It is modelled
  as `NormalizeLoad`, which is proved to be the identity.
- **Deflection is not scaled.** The code reports the deflection `y` as computed. Only moment
  (÷ 1,000,000) and shear (÷ 1,000) are scaled.
- **The two-span moment jumps at L1.** `TwoSpanUnequal.MomentAtMiddleSupport` proves the
  first-span value at x = L1 is w·L1³/(2·(L1 + L2)). `TwoSpanUnequal.MomentBeyondMiddleSupport`
  proves that beyond L1 the value is x2·(R2 − w·x2/2) with x2 = x − L1, which tends to 0.
- **The two-span deflection is not 0 at the middle and right supports.**
  `TwoSpanUnequal.DeflectionAtMiddleSupport` proves the value at x = L1 is
  −w·L1³·L2/(4·EI·(L1 + L2)). `TwoSpanUnequal.DeflectionBeyondMiddleSupport` proves that beyond
  L1 the value is x2 times a polynomial in x2, so it tends to 0: the deflection jumps at L1.
  `TwoSpanUnequal.DeflectionAtRightSupport` proves the value at x = L1 + L2 is −M·L2²/(2·EI).
- **The two-span shear jumps at L1.** At x = L1 the first-span formula gives R1 − w·L1 = −M
  (`TwoSpanUnequal.ShearAtMiddleSupport`). Beyond L1 the value is R2 − w·x2
  (`TwoSpanUnequal.ShearBeyondMiddleSupport`).

The `Analyzer` builders `DeflectionEquation`, `BendingMomentEquation` and `ShearForceEquation`
model the six `get*Equation` methods (js/beam-analysis.js:81-125, 134-210). They carry no
contract of their own. What each returned closure does is fixed by the `ensures` of the
`BeamAnalysis.Get*` function that calls it. That function states that the closure agrees with
the analyzer's response function wherever that function is defined.

## Model

| member | source | states |
|---|---|---|
| `Beams.NormalizeLoad` | js/beam-analysis.js:85 | the load normalisation `load * 1000 / 1000` returns the load unchanged |
| `Beams.Position` | js/beam-analysis.js:90-91 | the reported position is the millimetre position converted to metres (times 1000 gives x back) |
| `SimplySupported.Deflection` | js/beam-analysis.js:81-95 | reports x/1000; value 0 for x < 0 or x > L; value 0 at both supports x = 0 and x = L |
| `SimplySupported.BendingMoment` | js/beam-analysis.js:97-110 | reports x/1000; value 0 outside [0, L]; value 0 at both supports |
| `SimplySupported.ShearForce` | js/beam-analysis.js:112-125 | reports x/1000; value 0 outside [0, L]; value (w·L/2)/1000 at the left support |
| `SimplySupported.DeflectionSymmetric` | js/beam-analysis.js:87-89 | deflection is symmetric about midspan, y(x) = y(L − x), at every position |
| `SimplySupported.DeflectionAtMidspan` | js/beam-analysis.js:89 | the midspan deflection is 5·w·L⁴/(384·EI) |
| `SimplySupported.MomentSymmetric` | js/beam-analysis.js:102-107 | the moment is symmetric, M(x) = M(L − x), at every position |
| `SimplySupported.MomentAtMidspan` | js/beam-analysis.js:104-107 | the midspan moment is w·L²/8 divided by 1,000,000 |
| `SimplySupported.MomentPeaksAtMidspan` | js/beam-analysis.js:102-107 | under a non-negative load, no position has a larger moment than midspan |
| `SimplySupported.ShearAntisymmetric` | js/beam-analysis.js:117-122 | shear is antisymmetric, V(x) = −V(L − x), at every position |
| `SimplySupported.ShearAtSupportsAndMidspan` | js/beam-analysis.js:119-122 | shear is +(w·L/2)/1000 at x = 0, 0 at L/2 and −(w·L/2)/1000 at x = L |
| `TwoSpanUnequal.Deflection` | js/beam-analysis.js:134-160 | reports x/1000; value 0 outside [0, L1 + L2]; value 0 at x = 0 |
| `TwoSpanUnequal.BendingMoment` | js/beam-analysis.js:162-185 | reports x/1000; value 0 outside [0, L1 + L2]; value 0 at x = 0 |
| `TwoSpanUnequal.ShearForce` | js/beam-analysis.js:187-210 | reports x/1000; value 0 outside [0, L1 + L2]; value R1/1000 at x = 0 |
| `TwoSpanUnequal.ReactionsMirror` | js/beam-analysis.js:172-176 | swapping L1 and L2 turns R2 into R1 and leaves the correction moment unchanged |
| `TwoSpanUnequal.FirstSpanSuperposition` | js/beam-analysis.js:144-147 | on [0, L1], deflection is the simply supported deflection of span L1 minus M·x²/(2·EI) |
| `TwoSpanUnequal.ZeroSecondSpanIsSimplySupported` | js/beam-analysis.js:141-147 | with secondarySpan = 0, the two-span deflection equals the simply supported deflection at every position |
| `TwoSpanUnequal.SecondSpanMirrorsFirst` | js/beam-analysis.js:148-153 | on (L1, L1 + L2], each response at x equals the first-span response of the beam with its spans swapped, at x2 = x − L1 |
| `TwoSpanUnequal.EqualSpansRepeat` | js/beam-analysis.js:144-153 | with L1 = L2, each response at x + L1 equals the response at x, for x in (0, L1] |
| `TwoSpanUnequal.MomentAtMiddleSupport` | js/beam-analysis.js:171-173 | at x = L1 the first-span moment is w·L1³/(2·(L1 + L2))/1,000,000 |
| `TwoSpanUnequal.MomentBeyondMiddleSupport` | js/beam-analysis.js:174-178 | on (L1, L1 + L2], the moment times 1,000,000 is x2·(R2 − w·x2/2) with x2 = x − L1, so it tends to 0 as x2 does: the moment jumps at L1 |
| `TwoSpanUnequal.DeflectionAtMiddleSupport` | js/beam-analysis.js:144-147 | at x = L1 the deflection is −w·L1³·L2/(4·EI·(L1 + L2)), not 0 |
| `TwoSpanUnequal.SpanDeflectionFactor` | js/beam-analysis.js:151-152 | the span deflection formula equals t times a polynomial factor in the local coordinate t |
| `TwoSpanUnequal.DeflectionBeyondMiddleSupport` | js/beam-analysis.js:148-153 | on (L1, L1 + L2], the deflection is x2 times an explicit polynomial in x2, so it tends to 0 as x2 does: the deflection jumps at L1 |
| `TwoSpanUnequal.ReactionsSum` | js/beam-analysis.js:172-176 | R1 + R2 equals w·(L1 + L2) − w·L1·L2/(L1 + L2), short of the total load |
| `TwoSpanUnequal.MomentAtRightSupport` | js/beam-analysis.js:174-178 | at the right end x = L1 + L2 the moment is w·L2³/(2·(L1 + L2))/1,000,000, not 0 |
| `TwoSpanUnequal.ShearAtMiddleSupport` | js/beam-analysis.js:196-198 | at x = L1 the code takes the first-span branch and the shear is R1 − w·L1 = −M, divided by 1,000 |
| `TwoSpanUnequal.ShearBeyondMiddleSupport` | js/beam-analysis.js:199-203 | on (L1, L1 + L2], the shear times 1,000 is R2 − w·x2 with x2 = x − L1: it jumps from −M at L1 towards R2 |
| `TwoSpanUnequal.DeflectionAtRightSupport` | js/beam-analysis.js:148-153 | at the right end x = L1 + L2 the deflection is −M·L2²/(2·EI), not 0 |
| `BeamAnalysis.GetDeflection` | js/beam-analysis.js:30-42 | succeeds exactly for the two registered tags, else fails with InvalidCondition; returns beam and load unchanged; its equation is the chosen analyzer's deflection |
| `BeamAnalysis.GetBendingMoment` | js/beam-analysis.js:44-56 | succeeds exactly for the two registered tags, else fails with InvalidCondition; returns beam and load unchanged; its equation is the chosen analyzer's moment |
| `BeamAnalysis.GetShearForce` | js/beam-analysis.js:58-70 | succeeds exactly for the two registered tags, else fails with InvalidCondition; returns beam and load unchanged; its equation is the chosen analyzer's shear |
| `AnalysisPlotter.GeneratePoints` | js/analysis-plotter.js:67-79 | returns exactly 101 points; the i-th is the equation's point at (i/100)·totalSpan, in order |
| `AnalysisPlotter.SamplesSpanTheBeam` | js/analysis-plotter.js:72-73 | the first sample is at 0 and the last at totalSpan |
| `AnalysisPlotter.SamplesNondecreasing` | js/analysis-plotter.js:72-73 | over a non-negative span, the sample positions never decrease |
| `AnalysisPlotter.SamplesWithinSpan` | js/analysis-plotter.js:72-73 | over a non-negative span, every sample lies in [0, totalSpan] |
| `AnalysisPlotter.TwoSpanSamplesInDomain` | js/analysis-plotter.js:70-73 | on a two-span beam every sample lies in [0, L1 + L2], so none takes the out-of-domain branch |
| `AnalysisPlotter.SingleSpanSamplesInDomain` | js/analysis-plotter.js:70-73 | on a beam without a secondary span (absent or 0) every sample lies in [0, L] |
| `AnalysisPlotter.SampleInMetres` | js/analysis-plotter.js:70-73 | the i-th sample, in metres, is i·(primarySpan + secondarySpan)/100 |
| `AnalysisPlotter.DeflectionBundlePlots` | js/analysis-plotter.js:70-75 | for a registered tag and a valid span, and EI ≠ 0, every deflection bundle from the facade can be evaluated at all 101 samples and reports each at i·span/100 metres |
| `AnalysisPlotter.BendingMomentBundlePlots` | js/analysis-plotter.js:70-75 | for a registered tag and a valid span, whatever EI is, every bending-moment bundle can be evaluated at all 101 samples and reports each at i·span/100 metres |
| `AnalysisPlotter.ShearForceBundlePlots` | js/analysis-plotter.js:70-75 | for a registered tag and a valid span, whatever EI is, every shear-force bundle can be evaluated at all 101 samples and reports each at i·span/100 metres |
| `AnalysisPlotter.SimplySupportedDeflectionPlotEndsAtZero` | js/analysis-plotter.js:72-75 | on a single-span beam, the first and last plotted deflections are 0 |

## Left out

- The `AnalysisPlotter` constructor and `plot` (js/analysis-plotter.js:4-65) are left out. They look up a DOM canvas and configure a Chart.js chart: foreign library calls and presentation.
- IEEE floating point is left out. The model computes over exact reals. For example, (p + s)·1000 and p·1000 + s·1000 are equal here but may differ in the source by rounding.
- NaN and Infinity are left out. The source produces them when EI = 0, when L1 + L2 = 0, or when a two-span beam has no secondary span. The model states the absence of these cases as the closures' preconditions. It does not model the non-finite values.
- A missing `EI` property or a missing load is not modelled. In JavaScript these are `undefined` and give NaN.
- The analyzer constructors' `beam` and `load` fields (js/beam-analysis.js:76-79, 129-132) are left out: nothing reads them.
- The `options.condition` default (js/beam-analysis.js:20-22) is left out: nothing reads it.
- `Material.name` is kept as a field but nothing reads it.
- JavaScript property lookup is narrowed. `this.analyzer[condition]` also finds inherited keys such as `toString`. The model treats only the two registered tags as valid.
- Statics are not proved, because the code does not implement them. In the two-span formulas:
  - R1 + R2 falls short of the total load by w·L1·L2/(L1 + L2) (`TwoSpanUnequal.ReactionsSum`);
  - the moment jumps at L1 (`MomentAtMiddleSupport`, `MomentBeyondMiddleSupport`), and the right-end moment is w·L2³/(2·(L1 + L2)), not 0 (`MomentAtRightSupport`);
  - the shear jumps at L1 from −M to values tending to R2 (`ShearAtMiddleSupport`, `ShearBeyondMiddleSupport`);
  - the deflection is not 0 at the middle support or at the right support, and it jumps at L1 (`DeflectionAtMiddleSupport`, `DeflectionBeyondMiddleSupport`, `DeflectionAtRightSupport`).

  The formulas are modelled as written, and the lemmas named in each item state these values.
