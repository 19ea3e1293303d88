# AtomicRenderer, modelled in Dafny

AtomicRenderer turns a 2-D point cloud with colour coordinates into an
image that works like a three-channel histogram. The project models its two
core files.

- `designs.py` (module `Designs`) holds ten point generators. Each one
  checks its parameters A, B, C ∈ [0, 1] and its colour option ∈ {0, 1, 2},
  maps A, B, C affinely to physical constants, and picks its colour stream
  by the colour option. Four of them also reject an unstable parameter
  region.
  - `circle` samples a closed-form curve at 200000 points of
    [0, 8π]. It has no recurrence and no loop, and `Circle` is a function.
  - The other nine run 210000 steps of a recurrence and keep the 200000
    states after a burn-in of 10000 steps. They route the recorded streams
    to x, y and colour through a table indexed by the colour option.

  The shared loop is one generic method, `IterateWithBurnIn`, with the step
  function abstract. Each of the nine recurrence generators is a method that
  calls it. The loop's contract ties the result to a specification function
  built on `Orbit`, the state after n steps.
- `atomic_renderer.py` (modules `Rendering` and `Grids`) holds the rendering
  session. It covers:
  - min-max normalisation of the cloud, with aspect preservation and margin;
  - the colour flag;
  - the final clip of the palette;
  - aspect-corrected, truncated and clipped pixel indices;
  - the scatter-add of RGB triples into a w×h×3 buffer, followed by the
    non-negativity clip;
  - the post-processors and the axis swap used before export.

  `AtomicRenderer` is a class:
  - its fields are `xs`, `ys`, `cs` and `colorsAreRgb`;
  - `imgArray` is an `array3<real>`;
  - `Image()` reads the buffer as a value (`Grids.Grid`);
  - the pure array operations are functions on that value.

`Common` holds the shared vocabulary: `Result`/`Option`, the error kinds,
and `Max`/`Min` over sequences.

Arithmetic is exact: Dafny `real` stands in for the source's floats.
Library maths enters as parameters, bundled in a `Transcendentals` value
(sin, cos, tan, sqrt, pow, pi), and nothing is assumed about these
functions. The random draws enter as `rand: nat -> real`, where `rand(n)` is
the n-th value `np.random.rand()` returns during the call, in the order the
source draws them. Python `assert` failures and `raise` become
`Err(...)`/`Some(error)` results:

| error | raised when |
|---|---|
| `InvalidParameter` | an input assert fails |
| `StabilityViolation` | a guarded parameter region is hit |
| `DegenerateRange` | a span is below 1e-6 |
| `EmptyInput` | numpy's `max` is taken of an empty array |
| `NonFiniteColors` | the colour array is constant, so normalising it divides 0 by 0 |

Two details of the code are easy to get wrong, and the model follows the
code in both:

- **Pixel indices.** `int()` truncates toward zero
  (`atomic_renderer.py:159-160`); it does not round. The model truncates
  (`Trunc`).
- **Re-applying the colour mapping.** `apply_color_mapping` does not check
  whether the colours are already RGB (`atomic_renderer.py:126-128`).
  Neither does `ApplyColorMapping`.

## Model

| member | source | states |
|---|---|---|
| Common.Max | atomic_renderer.py:102-103 | `.max()` of a non-empty array is an upper bound of every element and equals one of them |
| Common.Min | atomic_renderer.py:102-103 | `.min()` of a non-empty array is a lower bound of every element and equals one of them |
| Designs.NoiseBand | designs.py:45-47 | a draw in [0, 1) gives an initial coordinate in [-0.1, 0.1) |
| Designs.BurnInCloud | designs.py:53-63 | the recorded cloud has exactly 200000 entries in each of its three lists |
| Designs.IterateWithBurnIn | designs.py:53-63 | after 210000 steps that append only when i > 9999, the three lists each hold 200000 entries; entry k is emitted from the states before and after step 10000 + k |
| Designs.Reorder | designs.py:65-70 | the returned triple of streams is a permutation (as a multiset) of the recorded x, y, z streams |
| Designs.LorenzOrder | designs.py:65-70 | the lorenz table is a permutation of the streams: mode 0 gives (x, y, z), mode 1 (x, z, y), any other mode (y, z, x) |
| Designs.AizawaOrder | designs.py:192-197 | the aizawa table is a permutation of the streams: mode 0 gives (x, z, y), mode 1 (x, y, z), any other mode (z, y, x) |
| Designs.DistinctOrdersDiffer | designs.py:65-70 | when the three streams differ pairwise, two different tables give different outputs, so the colour option can be observed |
| Designs.ColorChoice | designs.py:145-150 | the x-and-y-preserving table: x and y are emitted unchanged, and c is x in mode 0, y in mode 1 and x*y otherwise |
| Designs.ReflectChoice | designs.py:312-323 | the reflection table: mode 1 emits (-y, -x) with c = y; every other mode keeps (x, y), with c = x in mode 0 and c = x*y otherwise |
| Designs.ReflectionIsInvolution | designs.py:316-319 | applying the mode-1 reflection twice gives back the original (x, y) |
| Designs.CircleConstantsOf | designs.py:13-15 | each control in [0, 1] maps into [1/3, 5/3], and 0.5 maps to 1 |
| Designs.Circle | designs.py:4-29 | fails with InvalidParameter exactly when an input assert fails; otherwise gives three lists of 200000 samples, where colour k is sin(t/2), sin(t) or sin(2t) at the k-th sample of [0, 8π] |
| Designs.CircleCurveIgnoresColorOption | designs.py:17-27 | circle's xs and ys are the same whatever the colour option |
| Designs.LorenzConstantsOf | designs.py:39-41 | for A, B, C in [0, 1]: ρ ∈ [24, 32], σ ∈ [6, 14], β ∈ [8/3 - 0.75, 8/3 + 0.75]; A = B = C = 0.5 gives the canonical (28, 10, 8/3) |
| Designs.Lorenz | designs.py:32-70 | fails exactly on invalid inputs; otherwise gives the burn-in orbit of the Euler step, reordered by the lorenz table |
| Designs.SineDelayConstantsOf | designs.py:80-81 | b never exceeds 1; for valid inputs b ≥ 0 and a ∈ [0.1, 10.1]; b is either 1 or the unclamped product |
| Designs.SineDelay | designs.py:73-115 | InvalidParameter exactly on invalid inputs; StabilityViolation exactly when the inputs are valid, A < 0.2 and B < 0.4; otherwise the delay-line cloud with its jitter and colour table |
| Designs.SineDelayShifts | designs.py:96-113 | each step shifts the delay line: the new x_n_m1 is the old x_n, and the new x_n is b*x_n_m1 + a*sin(x_n) |
| Designs.SineDelayChains | designs.py:102-113 | with the jitter removed, each recorded y equals the next recorded x |
| Designs.BurgersConstantsOf | designs.py:134-135 | for valid inputs the x gain lies in [-0.5, 1] and the y gain in [1.5, 2] |
| Designs.BurgersMap | designs.py:118-152 | fails exactly on invalid inputs; otherwise gives the burn-in orbit emitted through the x-and-y-preserving colour table |
| Designs.ColorChoiceKeepsPositions | designs.py:140-150 | for any step and initial state, the x-and-y-preserving table gives the same xs and ys in every mode |
| Designs.BurgersPositionsIgnoreColorOption | designs.py:142-150 | burgers_map's xs and ys do not depend on the colour option |
| Designs.AizawaConstantsOf | designs.py:162-168 | a, e and f are the fixed 0.95, 0.25 and 0.1; for valid inputs b ∈ [0.595, 0.945], d ∈ [1.75, 5.25] and c ∈ [0.3, 0.9] |
| Designs.Aizawa | designs.py:155-197 | fails exactly on invalid inputs; otherwise gives the burn-in orbit reordered by the aizawa table |
| Designs.PopcornConstantsOf | designs.py:210-223 | for valid inputs a ∈ [0.5, 1], b ∈ [0.5, 4.5] and the coupling C - 0.5 ∈ [-0.5, 0.5] |
| Designs.Popcorn | designs.py:200-240 | InvalidParameter exactly on invalid inputs; StabilityViolation exactly when the inputs are valid, A < 0.3 and B < 0.4; otherwise the popcorn cloud |
| Designs.PopcornPositionsIgnoreColorOption | designs.py:230-238 | popcorn's xs and ys do not depend on the colour option |
| Designs.HourglassConstantsOf | designs.py:253-265 | for valid inputs a ∈ [1.7, 1.95], e ∈ [-0.35, 0.35] and the jitter amplitude lies in [-0.025, 0.025] |
| Designs.Hourglass | designs.py:243-282 | InvalidParameter exactly on invalid inputs; StabilityViolation exactly when the inputs are valid, A > 0.6 and B > 0.9; otherwise the hourglass cloud |
| Designs.HourglassChains | designs.py:269-280 | ys[k] == xs[k + 1] for every pair of consecutive recorded points |
| Designs.HourglassPositionsIgnoreColorOption | designs.py:269-277 | hourglass's xs and ys do not depend on the colour option |
| Designs.HenonConstantsOf | designs.py:292-305 | for valid inputs a ∈ [1.3, 1.4] and b ∈ [0.2, 0.3], with (1.35, 0.25) at 0.5; C = 0.5 turns the jitter off |
| Designs.Henon | designs.py:285-325 | fails exactly on invalid inputs; otherwise gives the burn-in orbit emitted through the reflection table |
| Designs.ReflectModesRelate | designs.py:312-323 | for one orbit: mode 1 is mode 0 reflected to (-y, -x) and coloured by y; mode 2 has mode 0's points coloured by x*y |
| Designs.HenonModes | designs.py:310-323 | henon's three modes are related as ReflectModesRelate states |
| Designs.GingerbreadGuardOnValidInputs | designs.py:335-336 | for non-negative A and B, the guard abs(A) < abs(B) is exactly A < B |
| Designs.GingerbreadConstantsOf | designs.py:338-339 | for valid inputs a ∈ [-1.101, -0.901] and b ∈ [-1.1, -0.9] |
| Designs.Gingerbread | designs.py:328-374 | InvalidParameter exactly on invalid inputs; StabilityViolation exactly when the inputs are valid and A < B; success exactly when they are valid and B ≤ A |
| Designs.GingerbreadModes | designs.py:359-372 | gingerbread's three modes are related as ReflectModesRelate states |
| Designs.CatConstantsOf | designs.py:387-389 | for valid inputs a, b ∈ [0.4, 1.1] and c ∈ [0.5, 1.5], with c = 1 at C = 0.5 |
| Designs.Mod1 | designs.py:397-398 | `np.mod(v, 1)` lies in [0, 1) and differs from v by an integer |
| Designs.Cat | designs.py:377-418 | fails exactly on invalid inputs; otherwise gives the burn-in orbit emitted through the reflection table |
| Designs.CatYInUnitInterval | designs.py:398 | after any step, cat's y state lies in [0, 1) |
| Designs.CatModes | designs.py:403-416 | cat's three modes are related as ReflectModesRelate states |
| Designs.RecurrenceCloudsHave200000Points | designs.py:53-63 | every recurrence generator returns three lists of exactly 200000 entries |
| Grids.Zeros | atomic_renderer.py:49 | the fresh buffer is w×h×3 and is zero everywhere |
| Grids.ChannelMax | atomic_renderer.py:180 | `np.amax(array, (0,1))[ch]` bounds every entry of channel plane ch and equals one of them |
| Grids.GridMax | atomic_renderer.py:184 | `array.max()` bounds every entry of the buffer and equals one of them |
| Grids.PostprocessApplyGamma | atomic_renderer.py:175-176 | the gamma map keeps the buffer's shape |
| Grids.GammaOneIsIdentity | atomic_renderer.py:175-176 | when the power function satisfies v^1 = v, gamma 1 leaves the buffer unchanged |
| Grids.PostprocessMakeNegative | atomic_renderer.py:187-188 | each entry and its negative add up to 1; entries in [0, 1] stay in [0, 1] |
| Grids.MakeNegativeIsInvolution | atomic_renderer.py:187-188 | taking the negative twice gives back the buffer |
| Grids.PostprocessNormalizeColorByTotalMax | atomic_renderer.py:183-184 | same shape; every entry is divided by the buffer's maximum. Its peak property is NormalizeByTotalMaxPeaksAtOne below |
| Grids.NormalizeByTotalMaxPeaksAtOne | atomic_renderer.py:183-184 | when the maximum is positive, the normalised buffer's maximum is exactly 1 |
| Grids.PostprocessNormalizeColorsPerPixel | atomic_renderer.py:179-180 | despite the name, each channel plane is divided by that plane's maximum over the whole image, not by a per-pixel value. Its peak property is NormalizePerChannelPeaksAtOne below |
| Grids.NormalizePerChannelPeaksAtOne | atomic_renderer.py:179-180 | every channel plane with a positive maximum peaks at exactly 1 after the per-channel normalisation |
| Grids.Transpose | atomic_renderer.py:68-69 | a w×h×3 buffer becomes h×w×3; pixel (i, j) moves to (j, i) with its channel triple intact, so channels stay last |
| Grids.TransposeIsInvolution | atomic_renderer.py:68-69 | transposing twice gives back the buffer |
| Grids.AddAt | atomic_renderer.py:169 | `img_array[pw,ph] += c` adds the triple to one cell, channel by channel, and leaves every other cell as it was |
| Grids.ScatterAt | atomic_renderer.py:148-169 | after all the `+=` steps, each cell holds its start value plus the contributions of exactly the points that land on it |
| Grids.UnhitCellUnchanged | atomic_renderer.py:148-169 | a cell that no point lands on keeps its value |
| Grids.AddAtMass | atomic_renderer.py:169 | one `+=` raises the buffer's total mass by the sum of the added triple |
| Grids.ScatterMass | atomic_renderer.py:148-169 | conservation law: the scatter raises the total mass by the sum of all contributions |
| Grids.ClipNonNegative | atomic_renderer.py:172 | after the clip every entry is ≥ 0, and non-negative entries are unchanged |
| Grids.ClipKeepsNonNegativeScatter | atomic_renderer.py:148-172 | with a non-negative start and non-negative contributions, the clip changes nothing and the conservation law still holds |
| Rendering.Normalize | atomic_renderer.py:36-37 | when max > min, each element is rescaled affinely by (v - min)/(max - min) and lands in [0, 1] |
| Rendering.NormalizeExtremes | atomic_renderer.py:36-37 | normalisation sends the minimum to 0 and the maximum to 1 |
| Rendering.NormalizePreservesOrder | atomic_renderer.py:36-37 | normalisation keeps the order of any two elements, in both directions |
| Rendering.AspectAdjust | atomic_renderer.py:108-115 | both adjust factors lie in (0, 1]; the wider axis gets 1; the factors stand in the ratio delta_x : delta_y |
| Rendering.PlacedWithinHalfArea | atomic_renderer.py:117-120 | a normalised axis, once placed in an area of side `1 - 2*margin` with an adjust factor in (0, 1], stays within half that side of the centre |
| Rendering.NormalizeAxes | atomic_renderer.py:102-120 | fails exactly when an array is empty (EmptyInput) or a span is below 1e-6 (DegenerateRange); otherwise gives the rescaled axes of a spread cloud |
| Rendering.NormalizedAxesInMargin | atomic_renderer.py:110-120 | every normalised coordinate lies in [-(0.5 - margin), 0.5 - margin] |
| Rendering.NormalizedAxesSpans | atomic_renderer.py:108-120 | each placed axis runs exactly from -HalfExtent to +HalfExtent for its adjust factor |
| Rendering.NormalizedAxesFillMargin | atomic_renderer.py:110-120 | the axis with the larger input span fills [-(0.5 - margin), 0.5 - margin] exactly; both axes do when the spans are equal |
| Rendering.NormalizedPointsScaleUniformly | atomic_renderer.py:108-120 | aspect preservation, pointwise: one positive factor scales every x-difference and every y-difference between input points |
| Rendering.NormalizedAxesKeepAspect | atomic_renderer.py:108-120 | aspect preservation: output x-span / output y-span equals delta_x / delta_y (stated cross-multiplied) |
| Rendering.NormalizeColorData | atomic_renderer.py:122-123 | fails exactly when the colour array is empty (EmptyInput) or constant (NonFiniteColors). Otherwise it keeps the count and the scalar/RGB kind and puts every entry in [0, 1]. The value is exactly `Normalize` of the scalars, or `RescaleColors` of the triples |
| Rendering.RescaleColors | atomic_renderer.py:36-37 | `normalize` on an N-by-3 array: each channel of each triple is rescaled with the minimum and maximum taken over all entries, and lands in [0, 1] |
| Rendering.RescaleColorsExtremes | atomic_renderer.py:36-37 | on an N-by-3 array the smallest entry over all triples becomes 0 and the largest becomes 1 |
| Rendering.NormalizedColorsSpanUnitRange | atomic_renderer.py:122-123 | when `colors_are_rgb` is false and normalising succeeds, the colours `normalize_points` stores span exactly [0, 1], whether they are scalars or N-by-3 triples: the minimum entry becomes 0 and the maximum 1 |
| Rendering.MakeColormapFromFourHex | atomic_renderer.py:14-19 | from four byte triples: a and b in [0, 1)³ (divided by 256), c and d in [0, 2)³ (divided by 128) |
| Rendering.Clip01 | atomic_renderer.py:29 | `np.clip(v, 0, 1)` lies in [0, 1]; it is v inside, 0 below and 1 above |
| Rendering.PaletteValue | atomic_renderer.py:27-29 | one palette channel is always in [0, 1], whatever the cosine and sqrt return |
| Rendering.PaletteColor | atomic_renderer.py:22-31 | the palette's RGB triple lies in the unit cube |
| Rendering.ColorApplicator | atomic_renderer.py:22-31 | the output is RGB, has one triple per input point, and every channel is in [0, 1] |
| Rendering.ColorApplicatorIsPointwise | atomic_renderer.py:22-31 | two points with equal colour coordinates get equal RGB triples |
| Rendering.AspectScale | atomic_renderer.py:146-155 | rx = 1 and ry = w/h when w < h, rx = h/w and ry = 1 otherwise; both lie in (0, 1]; w*rx = h*ry = min(w, h) |
| Rendering.Trunc | atomic_renderer.py:159-160 | `int(v)` truncates toward zero: floor for v ≥ 0, ceiling for v < 0 |
| Rendering.ClipInt | atomic_renderer.py:165-166 | `np.clip(p, lo, hi)` lies in [lo, hi]; it is p inside and the nearer end outside |
| Rendering.PixelIndex | atomic_renderer.py:157-166 | the index lies in [0, size - 1]; it is the floor of the raw coordinate inside the image; points outside are pinned to the border |
| Rendering.TruncAndFloorAgreeAfterClip | atomic_renderer.py:159-166 | after the clip, truncation and floor give the same index |
| Rendering.Contribution | atomic_renderer.py:169 | a scalar colour broadcasts to all three channels, so a scalar point adds three times its value to the buffer's mass; an RGB colour is added as is |
| Rendering.Hits | atomic_renderer.py:148-169 | `zip` gives one in-bounds hit per point up to the shortest input: no point is dropped |
| Rendering.CellSumStep | atomic_renderer.py:169 | one more point adds its colour to its own cell's sum and to no other cell |
| Rendering.AtomicRenderer.constructor | atomic_renderer.py:42-57 | `__init__` gives a zero w×h×3 buffer, keeps the margin, and has no points yet |
| Rendering.AtomicRenderer.LoadPointsIntoRenderer | atomic_renderer.py:91-97 | stores the three arrays and the RGB flag; the buffer is untouched |
| Rendering.AtomicRenderer.NormalizePoints | atomic_renderer.py:100-123 | on a span error it reports the error before changing any field; otherwise xs and ys become the normalised axes, and cs is normalised exactly when the colours are not RGB; afterwards non-RGB colours lie in [0, 1] |
| Rendering.AtomicRenderer.NormalizeColors | atomic_renderer.py:122-123 | RGB colours are left alone; other colours are replaced by their min-max normalisation, or an error is reported |
| Rendering.AtomicRenderer.ApplyColorMapping | atomic_renderer.py:126-128 | cs becomes the mapping applied to the old cs, and the colours are marked RGB; xs, ys and the buffer are unchanged |
| Rendering.AtomicRenderer.AddToPixel | atomic_renderer.py:169 | the triple is added to the three channels of pixel (pw, ph) and every other entry keeps its value |
| Rendering.AtomicRenderer.LoadPointsIntoArray | atomic_renderer.py:141-172 | the buffer becomes the clipped scatter of all zipped points; afterwards it is non-negative; with a non-negative start and non-negative colours, its mass grows by exactly the sum of the contributions |
| Rendering.AtomicRenderer.GetImageTransposedArray | atomic_renderer.py:68-69 | the buffer with its spatial axes swapped: entry (i, j, ch) appears at (j, i, ch) |

## Left out

- `generate_image.py` is not part of this model. It is a driver script with hard-coded parameters and no logic of its own.
- The recurrence bodies, the palette's cosine and square root, and `np.power` are uninterpreted parameters. Floating-point rounding, overflow and NaN are not modelled.
- NaN detection is not modelled: the `np.isnan` checks at atomic_renderer.py:105 and the `ValueError` at 161-162. Reals cannot be NaN.
- Randomness: `np.random.rand()` is the parameter `rand`, indexed in the order the source draws.
- Hex parsing (`ImageColor.getcolor`, atomic_renderer.py:16-19) is not modelled. The palette takes the parsed byte triples.
- Foreign-library output is not modelled: plotting (`plot_image_array`), `convert_array_to_image` and `show_image` (atomic_renderer.py:72-88).
- `make_diagnostic_array`: a debug test pattern with no role in the pipeline.
- `apply_preprocessing_function` and `apply_postprocessing_function` are higher-order pass-throughs. They are not modelled; each post-processor is its own function instead.
- The unused `img` and `zs` fields are not modelled.
- Rendering.AtomicRenderer.constructor: the asserts on the margin become a precondition. The image size is two positive naturals: `r = w/h` divides by h, and the index clip needs a range of at least one pixel.
- Rendering.AtomicRenderer.NormalizePoints: numpy does not raise for a constant colour array. It divides 0 by 0, fills `cs` with NaN and keeps the new xs and ys. The model reports `NonFiniteColors` and leaves `cs` unchanged.
- Rendering.AtomicRenderer.LoadPointsIntoArray: numpy rebinds `img_array` to a clipped copy; the model clips the same array in place. xs unset before `load_points_into_renderer` (Python `None`) is modelled as empty sequences.
- Python default arguments are explicit parameters in the model and have no defaults there: `color_option=0` on every generator, `margin=0.1` in `__init__`, and `colors_are_rgb=False` in `load_points_into_renderer`.
- Grids.PostprocessApplyGamma: states only the shape, because `np.power` is uninterpreted. The default gamma of 0.5 is a parameter.
- Grids.PostprocessNormalizeColorByTotalMax: requires a nonzero maximum. numpy would divide by zero and produce NaN or infinity.
- Grids.PostprocessNormalizeColorsPerPixel: requires every channel's maximum to be nonzero, for the same reason.
- Rendering.ColorApplicator: for N×3 input, numpy's broadcast yields an N×1×3 array. The model returns the N triples, mapping each channel through its own palette row.
- Rendering.NormalizedAxesKeepAspect: the aspect property is stated on `AxesOf`, the value `NormalizeAxes` returns on success (its ensures links the two). The ratio is stated cross-multiplied.
- The guards in Designs are stated on the exact reals. The source compares floats, which can differ at the boundary.
