# xvs rule layer in Dafny

`xvs.py` is a collection of VapourSynth filter functions. Most of each function wires
plugin calls into a filter graph. Beneath the wiring is a small layer of deterministic
rules, and this project models that layer and proves what it does:

- **Pixel rules of the pressdown filters.** `stpresso`, `spresso` and `stpresso_mc` each
  derive a few thresholds from their parameters: `lim1`, `lim2`, `bk`, `tlim1` and
  `tlim2`. They then write per-pixel formulas as postfix `std.Expr` strings.
- **Depth scaling.** `scale` moves a value between bit depths.
- **Other pointwise masks:**
  - `mwlmask`, a piecewise-linear ramp;
  - the `SAdeband` mask and its smoothing choice;
  - four one-line expressions from `textsub`, `LazyDering`, `creditmask` and `mwenhance`.
- **Timing bookkeeping:**
  - `splicev1`, which fills in missing frame rates and writes timecode-v1 ranges;
  - `FIFP` pass 2, which reads the analysis file, writes timecode-v2 stamps and builds
    the field-selection list `tlist`.
- **`Overlaymod` geometry.** The code splits signed offsets into crop and pad amounts;
  the model also covers the placed clip and its mask.
- **Configuration tables and parameter strings:**
  - the `mvfrc` presets;
  - `InterFrame`'s validation and its three SVP parameter strings;
  - `dpidDown`'s matrix, css and range rules, and its output format;
  - `getCSS`;
  - `textsub`'s matrix choice;
  - the `XSAA` defaults;
  - `inpand`/`expand`.

The expression strings become token sequences. Each token sequence mirrors the
string concatenation in the source, and a small postfix evaluator (`Postfix`) gives
them meaning.

- **Evaluator semantics.**
  - It evaluates over exact reals.
  - A comparison yields 1 or 0.
  - `c a b ?` picks `a` when `c` is positive.
  - A division by zero yields `Undefined`, which stands for the NaN or infinity of the
    floating-point host. Arithmetic on `Undefined` stays `Undefined`, and every
    comparison with it is false.
- **How the proofs go.** Each token sequence is proved to be the postfix form of an
  expression tree, and each tree is proved to denote a closed-form function. The
  properties are then proved about those functions.
- **Modules and state.**
  - `splicev1` mutates its callers' lists, so in `Splice` it is a method over a
    `RateList` class with loops.
  - The `FIFP` read, timestamp and `tlist` loops are methods proved against
    specification functions.
  - Everything else is functions and lemmas.

| module | models |
|---|---|
| `Wrappers` | `Option`, and `Result` carrying the Python exception a call raises |
| `Text` | ASCII `lower`/`upper`, `repr` of an int, brace counting and nesting |
| `Depth` | `scale` and powers of two |
| `Rounding` | Python `round` (half to even) and `int()` truncation |
| `Postfix` | the `Expr` token language, its evaluator, expression trees and their compilation |
| `Pressdown` | `stpresso`, `spresso`, `stpresso_mc` |
| `Masks` | `mwlmask`, `SAdeband`, the one-line masks |
| `Overlay` | `Overlaymod` |
| `Splice` | `splicev1` |
| `Fifp` | `FIFP` |
| `Svp` | `InterFrame` |
| `Resize` | `dpidDown`, `getCSS`, `textsub`'s `_m` |
| `Presets` | `mvfrc`, `XSAA`, `inpand`/`expand` |

Where the code and its documentation disagree, the model follows the code:

- **Outer clamp branches.** The two outer branches of clamp-blend return `x ± lim2`
  rather than a blend.
- **Backshift.** It clamps the *original* pixel `y` into `[x − bk, x + bk]`, so
  `x = 132, y = 128, bk = 1` gives 131.
- **spresso gate.** The gate keeps only pixels with `|x − y| <= scale(0)`.
- **spresso chroma thresholds.** `lim1c`'s form and `lim2c` follow the luma `limit`.
- **Temporal expression.** It blends with `bias`, not `tbias`, and the sign of `limit`
  picks its form. Its documented bound of `tlimit` then fails (see Findings).

## Model

| member | source | states |
|---|---|---|
| Depth.ScaleUp | xvs.py:2159-2160 | scaling an integer to a deeper format multiplies it by the whole number 2^(out−in) |
| Depth.ScaleCompose | xvs.py:2159-2160 | scaling a→b then b→c equals scaling a→c |
| Depth.ScaleRoundTrip | xvs.py:2159-2160 | scaling to another depth and back returns the value |
| Depth.ScaleLinear | xvs.py:2159-2160 | scaling distributes over sums and keeps strict order |
| Depth.FactorAdd | xvs.py:2159-2160 | 2^(a+b) = 2^a·2^b for all integers, negative exponents being reciprocals |
| Depth.FactorPositive | xvs.py:2159-2160 | every scale factor is positive, and at least 1 for a non-negative exponent |
| Rounding.RoundHalfEven | xvs.py:71-72 | the result is within ½ of `q` and is even when `q` is exactly halfway |
| Rounding.RoundHalfEvenUnique | xvs.py:71-72 | those two properties determine the result |
| Rounding.TruncBounds | xvs.py:1023 | `int()` gives the neighbouring integer on the side of zero |
| Rounding.TruncMonotone | xvs.py:508 | truncation of non-negative values is monotone and non-negative |
| Text.LowerNormalises | xvs.py:1142-1143 | `lower` leaves no capital, is idempotent and fixes lower-case text |
| Text.UpperNormalises | xvs.py:1144 | `upper` leaves no small letter, is idempotent and fixes upper-case text |
| Text.ReprRoundTrip | xvs.py:1199 | the text `repr` gives an int reads back as that int |
| Text.ReprInjective | xvs.py:1199 | different ints have different `repr` text |
| Text.NetAppend | xvs.py:1152-1225 | the brace balance of a concatenation is the sum of the parts' balances |
| Text.BracesAppend | xvs.py:1152-1225 | reading a concatenation, the lowest brace depth is the first part's, or the second part's on top of the first part's balance |
| Text.NestedByLow | xvs.py:1152-1225 | a string nests its braces exactly when its balance is 0 and its lowest depth is not below 0 |
| Postfix.CompileCorrect | xvs.py:96-100 | a compiled expression pushes exactly its value and leaves the rest of the stack alone |
| Postfix.EvalCompile | xvs.py:96-100 | evaluating a compiled tree gives the tree's value |
| Postfix.RunAppend | xvs.py:96-100 | running two token sequences in turn is running their concatenation |
| Pressdown.SoftRatioMeaning | xvs.py:90-91 | the soft-ratio tokens compute: keep `x` under `lim1`, else step by `one` towards `y`, undefined at `x == y` |
| Pressdown.SoftRatioCompiles | xvs.py:90-91 | the soft-ratio token sequence is the postfix form of its expression tree |
| Pressdown.ClampMeaning | xvs.py:96-100 | the clamp tokens compute: gated → `x`; `y > x+lim1` → `x+lim2`; `y < x−lim1` → `x−lim2`; else the blend `(x(H−bias)+y·bias)/H` |
| Pressdown.ClampCompiles | xvs.py:96-100 | the clamp token sequence is the postfix form of its expression tree |
| Pressdown.BlendDenotes | xvs.py:98-100 | the blend is `x` moved the fraction `bias/H` towards `y`, undefined when `H = 0` |
| Pressdown.BackshiftMeaning | xvs.py:126-127 | the backshift tokens compute `y` clamped into `[x−bk, x+bk]` |
| Pressdown.Lim1Positive | xvs.py:71-73 | with `limit > 0`, `lim1` is `scale(limit·100/bias − 1)` to within half a step |
| Pressdown.Lim1SoftPositive | xvs.py:71-73 | with `limit <= 0`, `lim1 > 0` exactly when `0 < bias < 200`, and then `lim1 >= scale(1)` |
| Pressdown.DefaultThresholds | xvs.py:71-76 | limit 3, bias 24 give `lim1 = 12·2^(d−8)` and `lim2 = 3·2^(d−8)` at every depth d ≥ 8 |
| Pressdown.Stpresso | xvs.py:69-129 | fails with ZeroDivisionError exactly when `bias` or `tbias` is 0; temporal expression exactly when `tthr ≠ 0`; backshift exactly when `back ≠ 0`; stpresso_mc (xvs.py:255-292) derives the same |
| Pressdown.StpressoSpatial | xvs.py:89-100 | the spatial expression is soft-ratio when `limit < 0` and clamp-blend (gate `< scale(1)`) otherwise, with the derived thresholds |
| Pressdown.StpressoTemporal | xvs.py:102-106 | the temporal expression uses `tlim1`/`tlim2` and blends with `bias`; `limit`'s sign picks the form |
| Pressdown.StpressoBackshift | xvs.py:125-127 | the backshift expression clamps by `scale(back)` |
| Pressdown.Spresso | xvs.py:180-222 | fails with ZeroDivisionError exactly when `bias` or `bias_c` is 0, even when chroma is copied; a chroma expression exactly when `rg_mode_c ≠ 0` |
| Pressdown.SpressoLuma | xvs.py:196-204 | the luma expression is soft-ratio or clamp-blend with gate `<= scale(0)` |
| Pressdown.SpressoChroma | xvs.py:189-214 | the chroma thresholds take their form, and `lim2c`, from the luma `limit`; `limit_c`'s sign picks the expression |
| Pressdown.SoftRatioStep | xvs.py:90-91 | with `0 < one <= lim1`, a far pixel moves exactly `one` closer to `y` without passing it; a near one is kept |
| Pressdown.StpressoSoftRatioStep | xvs.py:71-91 | stpresso with `limit < 0` and `0 < bias < 200`: a pixel within `lim1` of `y` is kept, any other moves exactly `scale(1)` towards `y` without passing it |
| Pressdown.SoftRatioDefined | xvs.py:71-73 | with `lim1 > 0` soft-ratio never divides by zero |
| Pressdown.BackshiftPull | xvs.py:63-66 | the result lies between `x` and `y`, `|r−y| = max(0, |x−y|−bk)` and `|r−x| = min(bk, |x−y|)` |
| Pressdown.ClampBlendBound | xvs.py:96-100 | when the blend fraction keeps `lim1` within `lim2`, no pixel moves by more than `lim2` and a blended pixel stays between `x` and `y` |
| Pressdown.StpressoFraction | xvs.py:71-76 | with `limit > 0`, `0 < bias <= 100`, depth ≥ 8, the derived thresholds meet that condition |
| Pressdown.DerivedClampBound | xvs.py:96-100 | with the derived thresholds the clamp never moves a pixel by more than `scale(limit)` |
| Pressdown.StpressoSpatialBound | xvs.py:51-52 | stpresso's spatial expression never changes a pixel by more than `scale(limit)`, as its docstring promises |
| Pressdown.SoftRatioEquivariant | xvs.py:90-91 | scaling pixels and thresholds by k > 0 scales the soft-ratio result by k |
| Pressdown.BackshiftEquivariant | xvs.py:126-127 | scaling pixels and the band by k > 0 scales the backshift result by k |
| Pressdown.ClampEquivariant | xvs.py:96-100 | with a fixed divisor, scaling pixels and thresholds by k > 0 scales the clamp result by k |
| Pressdown.ThresholdsAcrossDepths | xvs.py:71-78 | `lim1`, `lim2` and `scale(1)` at any depth are the 8-bit ones times 2^(d−8) |
| Pressdown.StpressoSoftRatioAcrossDepths | xvs.py:89-91 | the soft-ratio form at depth d on scaled pixels is the 8-bit result scaled to d |
| Pressdown.StpressoBackshiftAcrossDepths | xvs.py:125-127 | the backshift at depth d on scaled pixels is the 8-bit result scaled to d |
| Pressdown.ClampExample | xvs.py:96-100 | depth 8, limit 3, bias 24: (128, 200) gives 131 |
| Pressdown.SoftRatioExamples | xvs.py:89-91 | depth 8, limit −2, bias 24: (100, 103) gives 100 and (100, 110) gives 101 |
| Pressdown.BackshiftExample | xvs.py:125-127 | back 1: (132, 128) gives 131 |
| Pressdown.Depth16 | xvs.py:71-76 | at 16 bits the defaults give `lim1 = 3072`, `lim2 = 768` and `scale(100) = 25600` |
| Pressdown.BlendWeightShrinksWithDepth | xvs.py:98-100 | as written, the same picture blends by 0.24 at 8 bits but 0.24/256 at 16 bits |
| Pressdown.IntendedClampMeaning | xvs.py:96-100 | the corrected clamp computes clamp-blend with divisor 100 |
| Pressdown.IntendedClampAt8 | xvs.py:96-100 | at 8 bits the corrected clamp is the expression stpresso builds |
| Pressdown.IntendedClampAcrossDepths | xvs.py:96-100 | the corrected clamp at depth d on scaled pixels is the 8-bit result scaled to d |
| Pressdown.IntendedClampBound | xvs.py:51-52 | the corrected clamp never moves a pixel by more than `scale(limit)`, at every depth |
| Pressdown.IntendedClampExample | xvs.py:96-100 | the corrected clamp maps the 16-bit picture of the example to 33136.64, the 8-bit result scaled |
| Pressdown.SpressoChromaDividesByZero | xvs.py:189-208 | as written, `limit > 0` with `limit_c < 0` makes the chroma of every unchanged pixel undefined |
| Pressdown.IntendedChromaMeaning | xvs.py:206-214 | the corrected chroma expression takes every threshold from `limit_c` |
| Pressdown.IntendedChromaDefined | xvs.py:206-208 | with `limit_c < 0` and `0 < bias_c < 200` the corrected chroma is always defined |
| Pressdown.IntendedChromaBound | xvs.py:210-214 | with `limit_c > 0` the corrected chroma never moves a pixel by more than `scale(limit_c)` |
| Pressdown.SpressoLumaBound | xvs.py:162-163 | with `limit > 0` and `0 < bias <= 100`, spresso's luma expression never changes a pixel by more than `scale(limit)`, as its docstring promises |
| Pressdown.TemporalExceedsTlimit | xvs.py:102-106 | as written, depth 8, limit 3, bias 24, tlimit 3, tbias 10 give `tlim1 = 29`, `tlim2 = 3`, and the temporal expression moves 100 towards 129 by 6.96, more than `tlimit` |
| Pressdown.IntendedTemporalMeaning | xvs.py:102-106 | the corrected temporal expression is the written one with the blend by `tbias` |
| Pressdown.IntendedTemporalAgrees | xvs.py:102-106 | with `limit < 0` or `bias == tbias`, stpresso builds exactly the corrected temporal expression |
| Pressdown.IntendedTemporalBound | xvs.py:59-60 | with `limit >= 0`, `tlimit > 0`, `0 < tbias <= 100` and depth ≥ 8, the corrected temporal expression never changes a pixel by more than `scale(tlimit)` |
| Pressdown.IntendedTemporalExample | xvs.py:102-106 | the corrected temporal expression maps the input of the counterexample to 102.9 |
| Masks.MwlMask | xvs.py:1982-1997 | depth < 8 raises ValueError (negative shift); `h1 == l1`, or `h2 == l2` below white, raises ZeroDivisionError; otherwise the ramp tokens |
| Masks.MwlMaskMeaning | xvs.py:1982-1997 | the mask evaluates to the ramp: 0 up to `l1`, rising to white at `h1`, white up to `h2`, falling to 0 at `l2` |
| Masks.RampRange | xvs.py:1992-1997 | with thresholds in order the mask stays within black..white |
| Masks.RampMonotone | xvs.py:1995-1997 | without a falling edge the mask never decreases as luma rises |
| Masks.MwlDefaults16 | xvs.py:1985-1990 | at 16 bits the defaults 80/96 become 20480/24576 with white 65535 |
| Masks.DebandMeaning | xvs.py:870 | the deband tokens compute 0 above `thr`, else `65535·(thr−x)/(thr−low)` |
| Masks.DebandShape | xvs.py:870 | the mask is 65535 at `low`, 0 at `thr`, within range between them and above 65535 below `low` |
| Masks.DebandDecreasing | xvs.py:870 | a brighter pixel gets a smaller mask value where not cut off |
| Masks.SAdeband | xvs.py:868-883 | TypeError exactly when `smoothmask` is neither −1..2 nor a list; the mask uses `scale(thr)` and `scale(16)` or 0 |
| Masks.SAdebandSmoothing | xvs.py:872-881 | −1: no smoothing; 0, 1, 2: RemoveGrain 11, 20, 19; a list: Convolution with it |
| Masks.SAdebandDefault | xvs.py:870 | the default mask runs from 4096 (full) to 32768 (none) |
| Masks.SubtitleMaskMeaning | xvs.py:714 | a pixel changed by at least 1 is 255, any other is 0 |
| Masks.PositiveDiffMeaning | xvs.py:761 | the expression is `max(x − y, 0)` |
| Masks.CreditMaskMeaning | xvs.py:1531 | a difference over 2560 gives 65535, others 0 |
| Masks.LimitDiffMeaning | xvs.py:2088 | the difference nearer the neutral level is kept, `x` on a tie |
| Overlay.SplitMargin | xvs.py:1085-1088 | pad − crop equals the margin, and one of the two is zero |
| Overlay.SplitUnique | xvs.py:1085-1088 | no other crop/pad split has those properties |
| Overlay.CroppedWidth | xvs.py:1082-1095 | what is left of `clipb` after cropping is its overlap with `clipa` |
| Overlay.CropPadSize | xvs.py:1082-1096 | crop then pad turns `clipb`'s width and height into `clipa`'s |
| Overlay.AddBordersRow | xvs.py:1096 | each row of a padded frame is border, or a cropped row between borders |
| Overlay.CapPlaces | xvs.py:1090-1096 | the placed frame has `clipa`'s size; sample (i, j) is `clipb`'s (i−x, j−y) inside the rectangle, the border outside |
| Overlay.MaskPlaced | xvs.py:1098 | the placed mask is white exactly on the rectangle `clipb` covers |
| Overlay.AlphaChecksAsWritten | xvs.py:1074-1077 | as written, the default `alpha=None` always raises TypeError, and an alpha of any size passes |
| Overlay.OverlayChecksAccept | xvs.py:1074-1077 | the corrected checks pass exactly for two clips with no alpha, or an alpha of `clipb`'s size |
| Splice.RateList.constructor | xvs.py:335-336 | a list holds the given entries |
| Splice.Padded | xvs.py:342-348 | the list extended with `None` up to the clip count, a longer one unchanged |
| Splice.Pad | xvs.py:342-348 | the padding loop leaves exactly the padded list |
| Splice.Fill | xvs.py:350-358 | the fill loop leaves both lists filled by the per-clip rule |
| Splice.RunningTotals | xvs.py:364-366 | after the in-place loop, entry j is the frame count of clips 0..j |
| Splice.Rates | xvs.py:360-362 | ZeroDivisionError exactly when some filled denominator is 0, else each clip's exact rate |
| Splice.TimecodeLines | xvs.py:370-372 | line j runs from the total before clip j+1 to one less than the total through it |
| Splice.SpliceV1 | xvs.py:335-372 | the result is the specification's; the caller's own non-empty lists end padded and filled |
| Splice.FilledLists | xvs.py:335-358 | both lists end padded and filled; a `None` or empty argument is replaced by a list the caller never sees |
| Splice.FillRules | xvs.py:350-358 | no `num`: the clip's rate; `num` but no `den`: den 1001 if `num > 10000` else 1; both: as given |
| Splice.SpliceErrors | xvs.py:360-369 | the call fails exactly when there is no clip (IndexError) or a denominator is 0 |
| Splice.SpliceHeader | xvs.py:369-372 | the header rate is clip 0's, the first line starts after clip 0, the last ends at the last frame |
| Splice.SpliceLineLength | xvs.py:370-372 | each line covers exactly its clip's frames at its clip's rate |
| Splice.SpliceContiguous | xvs.py:370-372 | each line starts on the frame after the previous one ends |
| Splice.SpliceExample | xvs.py:335-372 | 24/30/24 frames at 24000/1001, 30000 and 25: lines 24–53 at 30000/1001 and 54–77 at 25 |
| Fifp.Slot | xvs.py:1012 | a list index is valid exactly in `[−n, n)`, negative ones counting from the end |
| Fifp.PlaceRows | xvs.py:1010-1012 | the rows are placed exactly when every line has two int fields and a frame number in range; placing keeps the list's length |
| Fifp.PlaceRowsFirstError | xvs.py:1010-1012 | the first line that cannot be placed decides the exception: IndexError for a line with one field or a frame out of range, ValueError for a line `int()` cannot read |
| Fifp.ReadReachesEmptyLine | xvs.py:1008-1012 | a clip two or more frames longer than the analysis makes the read reach the empty last line: IndexError |
| Fifp.ReadAnalysis | xvs.py:1004-1013 | the read loop computes the analysis list of the lines up to `len(src)` |
| Fifp.ReadPrefix | xvs.py:1008 | reading the file pass 1 writes up to line k+1 gives the first k classifications |
| Fifp.AnalysisDropsLastFrame | xvs.py:1008 | as written, the read stops one row short: the last frame is left out |
| Fifp.AnalysisReadsEveryFrame | xvs.py:1008 | the corrected bound reads one classification per frame |
| Fifp.SourceTimes | xvs.py:1023-1025 | field times are `int((i+1)·b)` and `int((i+0.5)·b)` |
| Fifp.Timecodes | xvs.py:1017-1028 | the timestamp loop yields the specification's stamps, ValueError on another value, ZeroDivisionError on a zero rate |
| Fifp.StampsDefined | xvs.py:1021-1027 | stamps exist exactly when every entry is 0 or 1 |
| Fifp.FieldTimeMonotone | xvs.py:1023-1025 | field times never decrease with the field index |
| Fifp.StampsNonDecreasing | xvs.py:1019-1025 | the timestamps never decrease |
| Fifp.TList | xvs.py:1040-1046 | the append loop yields the specified list |
| Fifp.TListShape | xvs.py:1040-1046 | `tlist` is strictly increasing, within `[0, 2n)`, of length n plus the interlaced count |
| Fifp.TListMembers | xvs.py:1040-1046 | `2i` is always in `tlist`; `2i+1` is in it exactly when entry i is not 0 |
| Fifp.StampsMatchSelection | xvs.py:1019-1046 | each kept field's stamp is its field time, and the last stamp ends the clip |
| Fifp.TimecodesExample | xvs.py:1017-1028 | 0, 1, 0 at 24000/1001 give 0, 41, 62, 83, 125 |
| Fifp.TListExample | xvs.py:1040-1046 | 0, 1, 0 give 0, 2, 3, 4 |
| Fifp.TimecodesRejectExample | xvs.py:1026-1027 | an entry 2 raises ValueError |
| Fifp.Pass2AsWritten | xvs.py:1038-1039 | as written, pass 2 always ends in an error |
| Fifp.Pass2NeverSelects | xvs.py:1039 | when everything before it succeeds, pass 2 fails with UnboundLocalError on `di` |
| Fifp.Pass2Selects | xvs.py:1038-1047 | corrected, pass 2 selects `tlist` from a cycle of 2n, one stamp per kept field and one for the end |
| Fifp.FifpStage | xvs.py:992-1052 | as written, a mode other than 0/1 raises ValueError, and mode 1 with a bad pass returns `None` instead of raising |
| Fifp.FifpStageIntended | xvs.py:1049-1050 | corrected: a bad pass raises ValueError and every success yields a stage |
| Svp.FormatCheckGaps | xvs.py:1137-1138 | as written, the guard fires only when neither factor is 1 and depth is not 8 or 10: it lets 4:4:4 8-bit in and yuv420p16 through |
| Svp.InterFrameAsWritten | xvs.py:1131-1150 | as written, anything but a clip raises "This is not a clip" first; for a clip the format error comes next and fires exactly when the `and`-joined guard does; preset, tuning, input type are checked case-insensitively in that order; layout follows InputType |
| Svp.InterFrame | xvs.py:1131-1150 | corrected: anything but a clip raises "This is not a clip" first; the format error fires exactly for a non-yuv420p8/p10 clip, and the Vectors string has the corrected closing piece; otherwise as written |
| Svp.InterFrameVersionsAgree | xvs.py:1131-1184 | the two versions agree on anything that is not a clip, on every clip the written guard rejects and on yuv420p8/10 unless the tuning is animation; when both succeed only the animation Vectors string differs |
| Svp.InterFrameFormatGaps | xvs.py:1137-1138 | a 4:4:4 8-bit and a 4:2:0 16-bit clip get a plan as written and the TypeError when corrected |
| Svp.InterFrameCaseInsensitive | xvs.py:1142-1144 | any spelling case of preset, tuning and InputType gives the same result |
| Svp.InterFrameDefaults | xvs.py:1126-1127 | the defaults on 23.976 fps yuv420p8 give `{gpu:1}`, film vectors and a 60000/1001 target |
| Svp.SuperBalanced | xvs.py:1154-1159 | the Super string nests its braces: equal counts, and no prefix closes more than it opened |
| Svp.VectorsUnbalancedAsWritten | xvs.py:1176-1195 | as written, the animation Vectors string has one `}` too many; it nests its braces exactly when the tuning is not animation |
| Svp.VectorsBalanced | xvs.py:1161-1195 | the corrected Vectors string nests its braces for every option, and is unchanged for non-animation tunings |
| Svp.SmoothRateMeaning | xvs.py:1198-1203 | the rate piece is the text of the chosen target rate |
| Svp.RateTextDouble | xvs.py:1201 | 15/25/30 fps or FrameDouble gives `{rate:{num:2,den:1,abs:false},` |
| Svp.RateTextDefault | xvs.py:1203 | other rates give `{rate:{num:60000,den:1001,abs:true},` |
| Svp.RateTextNet | xvs.py:1198-1203 | every rate piece leaves one brace open |
| Svp.SmoothBalanced | xvs.py:1197-1225 | the SmoothFps string nests its braces for every option |
| Svp.InterFrameBalanced | xvs.py:1152-1225 | corrected: whenever InterFrame succeeds, all three strings nest their braces |
| Svp.InterFrameBalancedAsWritten | xvs.py:1152-1225 | as written, the Super and SmoothFps strings nest their braces, and the Vectors string does exactly when the tuning is not animation |
| Resize.TierMonotone | xvs.py:1272-1278 | a frame no larger in either direction never lands in a higher tier, so neither textsub nor dpidDown gives it a newer matrix |
| Resize.MatricesAgree | xvs.py:673-679 | textsub and dpidDown pick matching matrices for every size |
| Resize.GetCssInjective | xvs.py:2227-2239 | no two subsamplings getCSS knows share a name |
| Resize.NormalisedShape | xvs.py:1307-1308 | a normalised code is `rgb` or two digits |
| Resize.CssSpellings | xvs.py:1294-1302 | for every text, the result does not depend on case; for each of the six names the J:a:b spelling gives the same code as the bare digits, and both succeed; a text succeeds exactly when its lower-case form is a code or one of those twelve spellings |
| Resize.Css410 | xvs.py:1305-1306 | with the alias that follows getCSS, `410` normalises to `44`, which reads back as subsampling (2, 2) |
| Resize.CssRoundTrip | xvs.py:1346-1347 | with 4:1:0 read as getCSS names it, every name getCSS gives reads back, in dpidDown, as the same subsampling |
| Resize.CssRoundTripFailsAsWritten | xvs.py:1305-1306 | as written, getCSS's `410` for (2, 2) becomes `42`, which reads back as (2, 1) |
| Resize.NormaliseRange | xvs.py:1322-1335 | lower-cases; tv→limited, pc→full; anything else raises ValueError |
| Resize.DpidDown | xvs.py:1280-1360 | only ValueError; ranges are limited/full; never upscales; default matrix by target tier; matrix_in is `rgb` for RGB; transfer defaults to transfer_in |
| Resize.DpidDownAsWritten | xvs.py:1280-1360 | as written, ranges are limited/full and the size never grows |
| Resize.DpidDownFails | xvs.py:1284-1335 | dpidDown fails exactly for a larger target, an unknown css, or a range other than limited/full/tv/pc |
| Resize.DpidVersionsAgree | xvs.py:1340-1348 | as written and corrected agree unless 4:1:0 or the code 44 is named, or a YUV source with unequal factors gets no css |
| Resize.DpidSwapsSubsampling | xvs.py:1343-1348 | as written, a 4:2:2 source with no css comes out 4:4:0 |
| Resize.DpidKeepsSubsampling | xvs.py:1342-1348 | corrected, with no css a YUV source keeps its subsampling and otherwise css's is used |
| Resize.DpidOutFamily | xvs.py:1340-1358 | the output is RGB exactly when css is rgb, or an RGB source has no css |
| Resize.DpidRangeFollowsFamily | xvs.py:1311-1321 | a default range_out equals range_in while the family stays, is limited for RGB→YUV and full for YUV→RGB |
| Presets.PresetIndex | xvs.py:476-483 | a position exactly for fast, medium, slow |
| Presets.Mvfrc | xvs.py:473-508 | anything but a clip raises "This is not a clip!" whatever the preset; for a clip, TypeError exactly for an unknown preset; `thscd1 = it`, `thscd2 = int(scp·255/100)`; explicit search, block mode, flow mask win |
| Presets.MvfrcPresetTable | xvs.py:485-490 | fast 0/0/0, medium 3/0/0, slow 3/3/2 |
| Presets.MvfrcPresetsOrdered | xvs.py:485-490 | a slower preset never searches less, nor uses a simpler block mode or flow mask |
| Presets.Thscd2Range | xvs.py:508 | a percentage maps monotonically into 0..255 |
| Presets.Thscd2Default | xvs.py:508 | 15 → 38, 100 → 255, 0 → 0 |
| Presets.MvfrcDefaultPlan | xvs.py:436-508 | the declared defaults give search 0, block 0, mask 0, 140, 38 |
| Presets.Xsaa | xvs.py:1457-1491 | ValueError for a bad aamode, then TypeError for RGB, then ValueError for a bad preaa; enlarge when aamode 1, or −1 below 720 lines |
| Presets.XsaaDefaultsBySize | xvs.py:1477-1491 | enlarged: nsize 1, qual 2, field 1, dh; else nsize 3, qual 1, field 3 |
| Presets.XsaaMasking | xvs.py:1497-1512 | maskmode 1 masks with the input's edges, 2 with the output's, a clip is used as the mask, any other number leaves the result unmasked |
| Presets.XsaaMergeBase | xvs.py:1500-1512 | a masked merge keeps the prefiltered luma exactly when preaa is 2 |
| Presets.XsaaOverrides | xvs.py:1478-1489 | explicit nsize and qual win |
| Presets.XsaaDefaultPlans | xvs.py:1439-1514 | all defaults: 1080p YUV is field-merged with an input edge mask; 480p gray is enlarged |
| Presets.Coordinates | xvs.py:2194-2203 | eight 0/1 entries for square, horizontal, vertical, both; TypeError otherwise |
| Presets.ModeAxes | xvs.py:2196-2201 | horizontal selects left/right, vertical up/down, both the four |
| Presets.ModeSquare | xvs.py:2194-2195 | square selects all eight neighbours |
| Presets.Morph | xvs.py:2193-2225 | succeeds exactly for a known mode |
| Presets.MorphIterates | xvs.py:2204-2208 | a valid mode filters max(cycle, 1) times; any other fails before filtering |
| Presets.MorphCompose | xvs.py:2205-2208 | m cycles then n more equal m + n cycles |

## Left out

- Graph wiring is left out: every `core.*`, `mvf`, `haf` and `muf` call, and the plugins for
  motion, denoising, deinterlacing and resizing. These are foreign calls with no visible
  meaning. The model stops at the parameters and expressions handed to them.
- `Morph` takes the Minimum/Maximum filter as a function parameter, so `inpand`/`expand`
  are modelled up to that filter.
- The host `Expr` evaluator's numeric type, output clamping and rounding are left out. So is
  floating-point inexactness. Expressions are evaluated over exact reals, and `round` is
  half-to-even on exact rationals.
- Float-to-string formatting is left out: `str(lim1)` and `str(float)` in the expression
  strings and timecode files. Tokens carry the numbers themselves.
- The file I/O in `splicev1` and `FIFP` is left out: writing `analyze.csv` and the two
  timecode files. The analysis file is modelled as its lines.
- `FrameEval` callbacks are left out. This includes the pass 1 analysis writer, which the host calls
  per frame against a shared file handle.
- `Splice.SpliceV1` does not model the same non-empty list passed as both `num` and `den`:
  the aliasing is excluded by its precondition.
- `Splice.Rates` keeps each fps as the exact rational `num/den`, not a Python float.
- `Svp.InterFrame` models the validation and the three parameter strings. It leaves out the
  8-bit conversion, the cropping and resizing of stereo views, and the SVP calls.
- `Svp.InterFrame` reads the `[15, 25, 30]` test on an exact fps rational.
- `Presets.Mvfrc` leaves out the fps comparison that chooses FlowBlur (xvs.py:518). It is a
  float comparison on the clip and drives only graph wiring.
- `Presets.Xsaa` models the decisions, not the plugin calls or `linedarken`.
- `Overlay.OverlayChecks` models the clip-size checks. The subsampling conversion and the
  alpha `Levels` are float graph operations.
- `isinstance` checks on arguments other than the clips are left out. The "is a clip" checks of
  `Overlaymod`, `mvfrc` and `InterFrame` are modelled.
- Case mapping is ASCII only.
- `Overlay.Cap` and `Overlay.CapPlaces` require crops that fit inside the frame, so a `clipb`
  placed entirely outside `clipa` is excluded rather than modelled. There the source asks the
  host to crop more than the clip holds, which the host rejects; that error is the host's.
- Nothing else in xvs.py is part of this model. That includes `vfrtocfr`, `NonlinUSM`,
  `mwenhance.diffEhFunc`, `drAA`, `readmpls`, `xTonemap`, `statsinfo2csv`, `ssim2csv`,
  `GMSD2csv`, the `nnedi3` dispatcher, the plane helpers and the aliases. They are float
  numerics, I/O or graph wiring with no rule of their own.
- `stpresso_mc`'s motion-compensation calls and its `s_p`/`a_p`/`c_p` arguments are left
  out. `Pressdown.Stpresso` covers its threshold derivation and expressions, which are the
  same as `stpresso`'s.

## Findings

| source | as written | input that shows it | evidently intended | confidence | as-written member | corrected member |
|---|---|---|---|---|---|---|
| xvs.py:98-100 | the blend divides by `scale(100)` but `bias` is not scaled | limit 3, bias 24, 16 bits: (32768, 34304) gives 32769.44, not 33136.64 | blend by `bias/100` at every depth | not executed | Pressdown.BlendWeightShrinksWithDepth | Pressdown.IntendedClampAcrossDepths |
| xvs.py:189-194 | `lim1c` and `lim2c` are keyed on the luma `limit` | limit 2, limit_c −1, bias_c 50: an unchanged chroma pixel divides by zero | thresholds from `limit_c` | not executed | Pressdown.SpressoChromaDividesByZero | Pressdown.IntendedChromaDefined |
| xvs.py:102-106 | the temporal expression blends by `bias`, while its thresholds come from `tlimit` and `tbias` | depth 8, limit 3, bias 24, tlimit 3, tbias 10: (100, 129) gives 106.96, a change of 6.96 | blend by `tbias`, so no pixel moves more than `tlimit` | not executed | Pressdown.TemporalExceedsTlimit | Pressdown.IntendedTemporalBound |
| xvs.py:1008 | `split("\n")[1:len(src)]` | any analysis file of n frames: only n−1 are read | `[1:len(src)+1]` | not executed | Fifp.AnalysisDropsLastFrame | Fifp.AnalysisReadsEveryFrame |
| xvs.py:1039 | `di = core.std.Cache(di, ...)` reads `di` before assigning it | every pass-2 call that reaches it | `core.std.Cache(dl, ...)` | not executed | Fifp.Pass2NeverSelects | Fifp.Pass2Selects |
| xvs.py:1050 | `ValueError(...)` is built but not raised | mode 1, pass 3 returns `None` | `raise ValueError(...)` | not executed | Fifp.FifpStage | Fifp.FifpStageIntended |
| xvs.py:1074-1077 | `alpha` is required, and the size check compares `mask` with `clipb` | the default `alpha=None` raises; an alpha of any size passes | alpha optional, and a given one matching `clipb` | not executed | Overlay.AlphaChecksAsWritten | Overlay.OverlayChecksAccept |
| xvs.py:1137-1138 | the guard joins its negations with `and` | 4:4:4 8-bit and yuv420p16 both pass | reject anything but yuv420p8/p10 | not executed | Svp.InterFrameFormatGaps | Svp.InterFrame |
| xvs.py:1177-1184 | the animation Vectors string closes one brace too many | Tuning "animation" | nested braces | not executed | Svp.InterFrameBalancedAsWritten | Svp.InterFrameBalanced |
| xvs.py:1343-1348 | the subsampling is passed to `register_format` as (h, w) | a 4:2:2 source with no css comes out 4:4:0 | (w, h) | not executed | Resize.DpidSwapsSubsampling | Resize.DpidKeepsSubsampling |
| xvs.py:1305-1306 | dpidDown reads J:a:b as horizontal and vertical factors, so 4:1:0 is `42`, (2, 1); getCSS (xvs.py:2232) names (2, 2) `410`. The two conventions disagree, and no call site passes one to the other | getCSS's `410` for (2, 2) reads back as (2, 1) | `44`, only if getCSS's naming is the one meant | low, not executed | Resize.CssRoundTripFailsAsWritten | Resize.CssRoundTrip |
