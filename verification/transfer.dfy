/**
 The two opto-electronic transfer policies of the ITU-R standards: the curve
 shared by BT.601 and BT.709, and the curve of BT.2020 (Table 4 of ITU-R
 BT.2020). Each has a linear segment near zero and a power segment above it.

 Samples are exact reals. The floating power function `powf` is a parameter
 `pow` about which nothing is assumed, so every fact proved here holds on the
 linear segments or concerns which segment is selected.
 */
module Transfer {

  /** The power function `pow(base, exponent)`, supplied by the caller. */
  type Pow = (real, real) -> real

  /** The two transfer policies. */
  datatype TransferFn = Transfer601And709 | Transfer2020

  /** Forward breakpoint of the 601/709 curve: inputs up to here stay linear. */
  const Knee601: real := 0.0018
  /** Inverse breakpoint of the 601/709 curve, a separate literal. */
  const EncodedKnee601: real := 0.0091

  /** The BT.2020 constants alpha and beta. */
  const Alpha: real := 1.09929682680944
  const Beta: real := 0.018053968510807

  /** The slope of both linear segments. */
  const Slope: real := 4.5

  /** `x` is on the linear segment of the forward (linear to encoded) curve. */
  predicate LinearSegment(t: TransferFn, x: real)
  {
    match t
    case Transfer601And709 => x <= Knee601
    case Transfer2020 => x < Beta
  }

  /** `y` is on the linear segment of the inverse (encoded to linear) curve. */
  predicate EncodedLinearSegment(t: TransferFn, y: real)
  {
    match t
    case Transfer601And709 => y <= EncodedKnee601
    case Transfer2020 => y < Beta * Slope
  }

  /** Inverse transfer: encoded signal to linear light. */
  function IntoLinear(t: TransferFn, pow: Pow, y: real): (r: real)
    ensures EncodedLinearSegment(t, y) ==>
              (LinearSegment(t, r) <==> t == Transfer2020 || y <= Slope * Knee601)
  {
    if EncodedLinearSegment(t, y) then y / Slope
    else match t
      case Transfer601And709 => pow((y + 0.099) / 1.099, 1.0 / 0.45)
      case Transfer2020 => pow((y + Alpha - 1.0) / Alpha, 1.0 / 0.45)
  }

  /** Forward transfer: linear light to encoded signal. */
  function FromLinear(t: TransferFn, pow: Pow, x: real): (r: real)
    ensures LinearSegment(t, x) ==>
              EncodedLinearSegment(t, r) && IntoLinear(t, pow, r) == x
  {
    if LinearSegment(t, x) then x * Slope
    else match t
      case Transfer601And709 => pow(x, 0.45) * 1.099 - 0.099
      case Transfer2020 => pow(x, 0.45) * Alpha - (Alpha - 1.0)
  }

  /** Which segment each direction takes, and that the linear segment does not
      depend on the power function at all. */
  lemma FromLinearBranches(t: TransferFn, pow: Pow, other: Pow, x: real)
    ensures LinearSegment(t, x) ==>
              FromLinear(t, pow, x) == Slope * x == FromLinear(t, other, x)
    ensures !LinearSegment(t, x) && t == Transfer601And709 ==>
              FromLinear(t, pow, x) == pow(x, 0.45) * 1.099 - 0.099
    ensures !LinearSegment(t, x) && t == Transfer2020 ==>
              FromLinear(t, pow, x) == pow(x, 0.45) * Alpha - (Alpha - 1.0)
  {
  }

  lemma IntoLinearBranches(t: TransferFn, pow: Pow, other: Pow, y: real)
    ensures EncodedLinearSegment(t, y) ==>
              IntoLinear(t, pow, y) * Slope == y && IntoLinear(t, pow, y) == IntoLinear(t, other, y)
    ensures !EncodedLinearSegment(t, y) && t == Transfer601And709 ==>
              IntoLinear(t, pow, y) == pow((y + 0.099) / 1.099, 1.0 / 0.45)
    ensures !EncodedLinearSegment(t, y) && t == Transfer2020 ==>
              IntoLinear(t, pow, y) == pow((y + Alpha - 1.0) / Alpha, 1.0 / 0.45)
  {
  }

  /** Zero is fixed by both directions of both curves. */
  lemma ZeroFixed(t: TransferFn, pow: Pow)
    ensures FromLinear(t, pow, 0.0) == 0.0
    ensures IntoLinear(t, pow, 0.0) == 0.0
  {
  }

  /** Decoding then encoding is exact wherever the decoded value lands back on
      the forward linear segment: below the whole inverse linear segment for
      BT.2020, and up to 4.5 * 0.0018 = 0.0081 for 601/709. */
  lemma DecodeEncode(t: TransferFn, pow: Pow, y: real)
    requires EncodedLinearSegment(t, y)
    requires t == Transfer2020 || y <= Slope * Knee601
    ensures FromLinear(t, pow, IntoLinear(t, pow, y)) == y
  {
  }

  /** The 601/709 breakpoints are not images of each other: an encoded value in
      (0.0081, 0.0091] decodes on the linear segment but re-encodes through the
      power segment. */
  lemma KneeGap601(pow: Pow, y: real)
    requires Slope * Knee601 < y <= EncodedKnee601
    ensures EncodedLinearSegment(Transfer601And709, y)
    ensures !LinearSegment(Transfer601And709, IntoLinear(Transfer601And709, pow, y))
    ensures FromLinear(Transfer601And709, pow, IntoLinear(Transfer601And709, pow, y))
              == pow(y / Slope, 0.45) * 1.099 - 0.099
  {
  }

  /** For BT.2020 the linear segments are exact images of each other: x is on
      the forward linear segment iff 4.5 * x is on the inverse one. For 601/709
      only the forward implication holds. */
  lemma SegmentsAlign(t: TransferFn, x: real)
    ensures LinearSegment(t, x) ==> EncodedLinearSegment(t, Slope * x)
    ensures t == Transfer2020 ==>
              (LinearSegment(t, x) <==> EncodedLinearSegment(t, Slope * x))
    ensures t == Transfer601And709 && Knee601 < x <= EncodedKnee601 / Slope ==>
              !LinearSegment(t, x) && EncodedLinearSegment(t, Slope * x)
  {
  }

  /** Each direction is strictly increasing on its linear segment. A segment is
      closed downwards, so only the larger point needs to be on it. */
  lemma LinearSegmentIncreasing(t: TransferFn, pow: Pow, x: real, y: real)
    requires x < y
    ensures LinearSegment(t, y) ==> FromLinear(t, pow, x) < FromLinear(t, pow, y)
    ensures EncodedLinearSegment(t, y) ==> IntoLinear(t, pow, x) < IntoLinear(t, pow, y)
  {
  }

  /** Nothing is clamped: a negative sample stays on the linear segments and
      comes out negative in both directions. */
  lemma NegativePassesThrough(t: TransferFn, pow: Pow, x: real)
    requires x < 0.0
    ensures FromLinear(t, pow, x) < 0.0 && IntoLinear(t, pow, x) < 0.0
    ensures IntoLinear(t, pow, FromLinear(t, pow, x)) == x
  {
  }

  /** The two families coincide up to the 601/709 breakpoint; on their common
      power segment they differ by (1.099 - alpha) * (pow(x, 0.45) - 1), which
      is non-zero exactly when pow(x, 0.45) != 1. */
  lemma FamiliesCompared(pow: Pow, x: real)
    ensures x <= Knee601 ==>
              FromLinear(Transfer601And709, pow, x) == FromLinear(Transfer2020, pow, x)
    ensures Knee601 < x < Beta ==>
              !LinearSegment(Transfer601And709, x) && LinearSegment(Transfer2020, x)
    ensures Beta <= x ==>
              FromLinear(Transfer601And709, pow, x) - FromLinear(Transfer2020, pow, x)
                == (1.099 - Alpha) * (pow(x, 0.45) - 1.0)
    ensures Beta <= x ==>
              (FromLinear(Transfer601And709, pow, x) == FromLinear(Transfer2020, pow, x) <==>
               pow(x, 0.45) == 1.0)
  {
  }
}
