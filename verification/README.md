# ITU-R broadcast encodings of palette, over exact reals

This project models the ITU-R encoding descriptors of the `palette` crate:

- the four named standards BT601_525, BT601_625, BT709 and BT2020;
- the transfer curves they use (the curve shared by BT.601 and BT.709, and the
  BT.2020 curve);
- the colour-difference policies 601, 709 and 2020 (luminance weights plus
  blue and red normalization);
- the generic composition that makes a (RGB space, transfer, difference)
  triple a YUV standard and a (YUV standard, quantization) pair a YCbCr
  standard, with the transfer and difference policies drawn from those
  defined in palette/src/encoding/itu.rs (see "Left out").

Samples are Dafny `real`s, so arithmetic is exact. Every literal is written as
it appears in the code: 0.0018, 0.0091, 4.5, 1.099, 0.099, alpha =
1.09929682680944, beta = 0.018053968510807, the exponent 1 / 0.45, and the
weight and divisor constants. The floating power function `powf` is a
parameter `pow: (real, real) -> real` of every transfer function, and nothing
is assumed about it. So every transfer property proved here concerns the
linear segments or which segment is selected.

Modules:

- `Vectors` (vectors.dfy): the `[T; 3]` vectors as `Triple`, with sum and dot
  product and their induction lemmas.
- `Transfer` (transfer.dfy): `Transfer601And709` and `Transfer2020`.
- `Difference` (difference.dfy): `DifferenceFn601/709/2020` and their
  constants.
- `Yuv` (yuv.dfy): the `YuvStandard` and `YCbCrStandard` records and the
  blanket triple and pair compositions. It also holds the analog conversion
  that the `DifferenceFn` contract describes: luma is the weighted sum of the
  transfer-encoded channels, and the blue and red differences are an encoded
  channel minus luma, normalized.
- `Itu` (itu.dfy): the named standards and their RGB space, RGB standard, luma
  standard and YUV standard bindings.

Facts about the code worth knowing:

- The 601/709 breakpoints 0.0018 and 0.0091 are not images of each other under
  the slope 4.5, since 4.5 · 0.0018 = 0.0081. Encoding after decoding is exact
  only up to 0.0081. An encoded value in (0.0081, 0.0091] decodes on the linear
  segment but re-encodes on the power segment (`Transfer.KneeGap601`).
- The BT.2020 inverse breakpoint is exactly 4.5 · beta, so its linear segments
  match exactly (`Transfer.SegmentsAlign`).
- The BT.709 difference weights are (0.2126, 0.7152, 0.07212). They sum to
  0.99992, while item 3.2 of ITU-R BT.709 gives 0.0722 for blue. The model
  follows the code. As a result:
  - a non-black grey has a small non-zero chroma under BT.709
    (`Yuv.GreyIsAchromatic`);
  - the BT.709 blue divisor 1.8556 is not twice one minus the blue weight
    (`Difference.NormsFromWeights`);
  - pure blue gives a normalized blue difference slightly above 0.5, outside
    the nominal range [-0.5, 0.5] (`Yuv.Bt709BlueOutOfRange`).

  The code's own comments point the other way. Those at
  palette/src/encoding/itu.rs:78-79 present these weights as exact compliance
  with item 3.2. The one at palette/src/encoding/itu.rs:293 says full intensity
  matches the white point, which a sum of 0.99992 contradicts. The code's
  divisors 1.8556 and 1.5748 are exactly 2 · (1 − 0.0722) and
  2 · (1 − 0.2126), and the item 3.2 weights sum to one
  (`Difference.Bt709DivisorsFitItem32Weights`). So the literal 0.07212 breaks
  the compliance these comments claim. The model still computes with 0.07212,
  as the code does. The documentation of `luminance` in
  palette/src/yuv/mod.rs:46-49 allows weight sums below one in general.
- The 601/709 breakpoints in the code (0.0018 forward, 0.0091 inverse) are
  not the 0.018 and 0.081 of item 1.2 of ITU-R BT.709, where the curve is
  continuous. The model keeps the code's literals and claims no continuity.

## Model

| member | source | states |
|---|---|---|
| Transfer.FromLinear | palette/src/encoding/itu.rs:225-265 | On the forward linear segment (x ≤ 0.0018 for 601/709, x < beta for 2020), negative inputs included, the encoded value lies on the inverse curve's linear segment and decodes back to exactly x |
| Transfer.IntoLinear | palette/src/encoding/itu.rs:225-265 | For an encoded value on the inverse linear segment, the decoded value is on the forward linear segment if and only if the curve is BT.2020 or the value is at most 4.5 · 0.0018 |
| Transfer.FromLinearBranches | palette/src/encoding/itu.rs:234-264 | Forward branch selection: 4.5 · x on the linear segment, whatever the power function; otherwise pow(x, 0.45) · 1.099 − 0.099 (601/709) or pow(x, 0.45) · alpha − (alpha − 1) (2020) |
| Transfer.IntoLinearBranches | palette/src/encoding/itu.rs:226-253 | Inverse branch selection: y / 4.5 on the linear segment (y ≤ 0.0091, resp. y < 4.5 · beta), whatever the power function; otherwise the power of the rescaled value to 1 / 0.45 |
| Transfer.ZeroFixed | palette/src/encoding/itu.rs:227-260 | Both directions of both curves map 0 to 0 |
| Transfer.DecodeEncode | palette/src/encoding/itu.rs:225-265 | Encoding after decoding returns the encoded value exactly on the whole BT.2020 inverse linear segment, and on the 601/709 one up to 0.0081 |
| Transfer.KneeGap601 | palette/src/encoding/itu.rs:226-240 | An encoded value in (0.0081, 0.0091] decodes linearly but its decoded value is past the forward breakpoint 0.0018, so it re-encodes through the power segment |
| Transfer.SegmentsAlign | palette/src/encoding/itu.rs:226-264 | 4.5 maps the forward linear segment into the inverse one; for BT.2020 x is on the forward segment if and only if 4.5 · x is on the inverse one, while for 601/709 (0.0018, 0.0091 / 4.5] breaks the converse |
| Transfer.LinearSegmentIncreasing | palette/src/encoding/itu.rs:227-260 | Each direction of each curve is strictly increasing on its linear segment |
| Transfer.NegativePassesThrough | palette/src/encoding/itu.rs:225-265 | Negative samples are not clamped: both directions keep them negative and they round-trip exactly |
| Transfer.FamiliesCompared | palette/src/encoding/itu.rs:234-264 | The two curves agree up to 0.0018; between 0.0018 and beta only 601/709 has left its linear segment; from beta on they differ by exactly (1.099 − alpha) · (pow(x, 0.45) − 1), so they agree there only where pow(x, 0.45) = 1 |
| Difference.Luminance | palette/src/encoding/itu.rs:69-91 | Every policy's luminance weights are non-negative and the green weight is positive |
| Difference.BlueNorm | palette/src/encoding/itu.rs:71-89 | Every blue divisor is greater than one |
| Difference.RedNorm | palette/src/encoding/itu.rs:73-91 | Every red divisor is greater than one |
| Difference.NormBlue | palette/src/encoding/itu.rs:274-276 | The normalized blue difference times the policy's blue divisor is the input; it keeps the input's sign and is strictly smaller in magnitude |
| Difference.DenormBlue | palette/src/encoding/itu.rs:278-280 | The denormalized blue difference divided by the policy's blue divisor is the input; it keeps the input's sign and is strictly larger in magnitude |
| Difference.NormRed | palette/src/encoding/itu.rs:282-284 | The normalized red difference times the policy's red divisor is the input; it keeps the input's sign and is strictly smaller in magnitude |
| Difference.DenormRed | palette/src/encoding/itu.rs:286-288 | The denormalized red difference divided by the policy's red divisor is the input; it keeps the input's sign and is strictly larger in magnitude |
| Difference.BlueNormInverse | palette/src/encoding/itu.rs:274-328 | denorm_blue(norm_blue(x)) = x and norm_blue(denorm_blue(x)) = x exactly for every policy; norm_blue is strictly increasing and keeps the sign |
| Difference.RedNormInverse | palette/src/encoding/itu.rs:282-336 | The same two inverse laws, monotonicity and sign preservation for the red pair |
| Difference.WeightsValid | palette/src/encoding/itu.rs:69-91 | The weights sum to at most one, and to exactly one if and only if the policy is not BT.709, whose weights sum to 0.99992 |
| Difference.NormsFromWeights | palette/src/encoding/itu.rs:69-91 | Every red divisor is 2 · (1 − red weight); the blue divisor is 2 · (1 − blue weight) if and only if the policy is not BT.709, where it is smaller |
| Difference.Bt709DivisorsFitItem32Weights | palette/src/encoding/itu.rs:78-84 | The BT.709 divisors 1.8556 and 1.5748 are exactly twice one minus the item 3.2 blue and red weights (0.0722, 0.2126), which sum to one; the code's weights differ from them only in blue, by 0.00008 |
| Difference.Bt709LuminancesDistinct | palette/src/encoding/itu.rs:76-80 | The BT.709 primary luminances sum to one and differ in every component from the BT.709 difference weights |
| Yuv.FromTriple | palette/src/yuv/mod.rs:89-93 | The YUV standard of a triple (R, T, D) has RGB space R, transfer T and difference D |
| Yuv.FromPair | palette/src/yuv/mod.rs:95-98 | The YCbCr standard of a pair (S, Q), where S is a YUV standard, has YUV standard S and quantization Q |
| Yuv.TripleIsYuvStandard | palette/src/yuv/mod.rs:89-93 | The triple composition adds nothing: every YUV standard is the standard of its own triple, and two triples give the same standard if and only if they are equal |
| Yuv.PairIsYCbCrStandard | palette/src/yuv/mod.rs:95-98 | The same for the pair composition |
| Yuv.EncodedRoundTrip | palette/src/yuv/mod.rs:36-62 | Luma plus the normalized blue and red differences determine the encoded pixel: decoding them gives it back exactly, for every policy |
| Yuv.YuvRoundTrip | palette/src/yuv/mod.rs:36-62 | Encoding the pixel that a YUV triple decodes to gives back the triple exactly |
| Yuv.Luma | palette/src/yuv/mod.rs:38-50 | Luma, the weighted sum of the transfer-encoded channels, lies between 0 and the sum of the weights, which is at most 1, whenever the encoded channels are in [0, 1] |
| Yuv.LumaOfGrey | palette/src/yuv/mod.rs:46-50 | The luma of a grey pixel is its level times the weight sum: the level itself, except 0.99992 times it under BT.709 |
| Yuv.GreyIsAchromatic | palette/src/yuv/mod.rs:46-59 | A grey pixel has zero blue and red difference if and only if the policy is not BT.709 or the level is zero |
| Yuv.ChromaRange | palette/src/yuv/mod.rs:52-59 | For encoded channels in [0, 1] both normalized differences lie in [−0.5, 0.5], except that the BT.709 blue difference is bounded only by 0.92788 / 1.8556 |
| Yuv.Bt709BlueOutOfRange | palette/src/encoding/itu.rs:78-84 | Under the BT.709 policy pure blue has a normalized blue difference above 0.5 |
| Yuv.LumaOnLinearSegment | palette/src/yuv/mod.rs:38-45 | With every channel on the linear segment, the luma of the encoded channels equals 4.5 times the weighted linear channels, so weighting after the transfer differs from weighting before it only on the power segment |
| Yuv.StandardRoundTrip | palette/src/yuv/mod.rs:16-25 | Under any YUV standard, a linear pixel whose channels are on the transfer's linear segment goes to YUV and back to itself exactly |
| Itu.RgbSpaceOf | palette/src/encoding/itu.rs:141-159 | Each standard's RGB space has the standard's own primaries and white point D65 |
| Itu.RgbStandardOf | palette/src/encoding/itu.rs:161-179 | Each RGB standard uses its own standard's space; its transfer is Transfer2020 if and only if the standard is BT2020, and Transfer601And709 otherwise |
| Itu.LumaStandardOf | palette/src/encoding/itu.rs:181-199 | Each luma standard has the same white point as the RGB space and names the same transfer as the RGB standard |
| Itu.YuvStandardOf | palette/src/encoding/itu.rs:201-223 | Each YUV standard has the RGB standard's space and the same transfer as the RGB and luma standards; its difference policy is 601 for both BT.601 variants, 709 exactly for BT709 and 2020 exactly for BT2020 |
| Itu.StandardsDistinct | palette/src/encoding/itu.rs:141-223 | No two named standards share an RGB space or a YUV descriptor, and the two BT.601 variants share transfer and difference policy |
| Itu.NamedIsAssembledTriple | palette/src/encoding/itu.rs:201-223 | Each named standard equals the triple of its own bindings, for example BT709 and (BT709, Transfer601And709, DifferenceFn709), and converts exactly as that triple does in both directions |
| Itu.NamedStandardConversions | palette/src/encoding/itu.rs:201-223 | For every named standard, linear-segment pixels round-trip through YUV, black maps to zero YUV, and the luma of in-range encoded channels lies in [0, 1] |

## Left out

- The power segments of both transfer curves. `powf` is floating-point numerics with no exact counterpart, so it is an unconstrained parameter. Nothing is proved about continuity at the breakpoints, round trips above them, or values such as from_linear(1) ≈ 1.
- Floating tolerance, the `FromF64` casts and the precision of the generic float type. The model is exact over `real`, so each inverse law holds exactly instead of within rounding.
- The chromaticity coordinates of the `Primaries` impls and their `Yxy` construction (palette/src/encoding/itu.rs:93-139). They are inputs to matrix-building code outside this core. Only the BT.709 primary luminances are kept, to show they differ from the difference weights.
- Open policy sets. `TransferFn` lists only `Transfer601And709` and `Transfer2020`, and `DifferenceFn` lists only the three policies of palette/src/encoding/itu.rs. The blanket impl at palette/src/yuv/mod.rs:89 accepts any implementor of those traits. A closed datatype is enough to state every property of the policies the crate defines.
- The `RgbSpace` bound. The `R` of `Yuv.YuvStandard<R>` is an unconstrained type parameter, not bounded by an RGB-space type. The RGB-space trait lives outside the modelled files, and nothing here depends on it. The `S: YuvStandard` bound of the pair impl is kept, because a YCbCr standard holds a `YuvStandard<R>`.
- `QuantizationFn` (palette/src/yuv/mod.rs:78-87). It is an interface with no implementation in these files, so it appears only as the type parameter `Q` of a YCbCr standard.
- `D65` and the `WhitePoint` trait beyond naming D65, and the `Copy`, `Clone`, `Debug`, `PartialEq` and `Eq` derives. These are external collaborators or boilerplate.
- The conversion routines that use these policies (palette/src/yuv/yuv.rs) are not part of this model. `Yuv.ToYuv` and `Yuv.FromYuv` compose the policy operations the way the `DifferenceFn` contract documents them. Recovering green from the luma equation in `FromYuv` is the model's own inverse.
