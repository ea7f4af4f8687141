/**
 The four named ITU-R standards and what each binds: its RGB space (primaries
 named after the standard, white point D65), and the transfer and difference
 policies it declares in each of its three capability contracts (RGB
 standard, luma standard, YUV standard).
 */
module Itu {
  import opened Vectors
  import opened Transfer
  import opened Difference
  import opened Yuv

  /** The named standards. */
  datatype Standard = BT601_525 | BT601_625 | BT709 | BT2020

  /** The only white point any of the standards uses. */
  datatype WhitePoint = D65

  /** An RGB space: a set of primaries, identified by the standard that
      defines them, and a white point. */
  datatype RgbSpace = RgbSpace(primaries: Standard, whitePoint: WhitePoint)

  /** The associated types of an RGB standard. */
  datatype RgbStandard = RgbStandard(space: RgbSpace, transferFn: TransferFn)

  /** The associated types of a luma standard. */
  datatype LumaStandard = LumaStandard(whitePoint: WhitePoint, transferFn: TransferFn)

  /** The RGB space of a standard: the primaries the standard defines itself,
      under white point D65. */
  function RgbSpaceOf(s: Standard): (sp: RgbSpace)
    ensures sp.primaries == s && sp.whitePoint == D65
  {
    match s
    case BT601_525 => RgbSpace(BT601_525, D65)
    case BT601_625 => RgbSpace(BT601_625, D65)
    case BT709 => RgbSpace(BT709, D65)
    case BT2020 => RgbSpace(BT2020, D65)
  }

  /** The RGB standard bindings: each standard's own space and a transfer
      function, BT.2020's being the only one that is not shared. */
  function RgbStandardOf(s: Standard): (r: RgbStandard)
    ensures r.space == RgbSpaceOf(s)
    ensures r.transferFn == Transfer2020 <==> s == BT2020
  {
    match s
    case BT601_525 => RgbStandard(RgbSpaceOf(BT601_525), Transfer601And709)
    case BT601_625 => RgbStandard(RgbSpaceOf(BT601_625), Transfer601And709)
    case BT709 => RgbStandard(RgbSpaceOf(BT709), Transfer601And709)
    case BT2020 => RgbStandard(RgbSpaceOf(BT2020), Transfer2020)
  }

  /** The luma standard bindings. */
  function LumaStandardOf(s: Standard): (l: LumaStandard)
    ensures l.whitePoint == RgbSpaceOf(s).whitePoint
    ensures l.transferFn == RgbStandardOf(s).transferFn
  {
    match s
    case BT601_525 => LumaStandard(D65, Transfer601And709)
    case BT601_625 => LumaStandard(D65, Transfer601And709)
    case BT709 => LumaStandard(D65, Transfer601And709)
    case BT2020 => LumaStandard(D65, Transfer2020)
  }

  /** The YUV standard bindings: the standard itself as RGB space, the same
      transfer function as its RGB and luma standards, and the difference
      policy of its own recommendation (both BT.601 variants share one). */
  function YuvStandardOf(s: Standard): (y: YuvStandard<RgbSpace>)
    ensures y.rgbSpace == RgbStandardOf(s).space
    ensures y.transferFn == RgbStandardOf(s).transferFn == LumaStandardOf(s).transferFn
    ensures y.differenceFn == DifferenceFn601 <==> s == BT601_525 || s == BT601_625
    ensures y.differenceFn == DifferenceFn709 <==> s == BT709
    ensures y.differenceFn == DifferenceFn2020 <==> s == BT2020
  {
    match s
    case BT601_525 => YuvStandard(RgbSpaceOf(BT601_525), Transfer601And709, DifferenceFn601)
    case BT601_625 => YuvStandard(RgbSpaceOf(BT601_625), Transfer601And709, DifferenceFn601)
    case BT709 => YuvStandard(RgbSpaceOf(BT709), Transfer601And709, DifferenceFn709)
    case BT2020 => YuvStandard(RgbSpaceOf(BT2020), Transfer2020, DifferenceFn2020)
  }

  /** The binding table is one-to-one: no two named standards bind the same
      RGB space or YUV descriptor, and the two BT.601 variants differ only in
      their primaries. */
  lemma StandardsDistinct(s: Standard, u: Standard)
    ensures s != u ==> RgbSpaceOf(s) != RgbSpaceOf(u) && YuvStandardOf(s) != YuvStandardOf(u)
    ensures YuvStandardOf(BT601_525).transferFn == YuvStandardOf(BT601_625).transferFn
    ensures YuvStandardOf(BT601_525).differenceFn == YuvStandardOf(BT601_625).differenceFn
  {
  }

  /** Each named standard is the YUV standard of the triple assembled from its
      own bindings, and so converts exactly as that triple does. */
  lemma NamedIsAssembledTriple(s: Standard, pow: Pow, rgb: Triple, yuv: Triple)
    ensures YuvStandardOf(BT601_525) == FromTriple((RgbSpaceOf(BT601_525), Transfer601And709, DifferenceFn601))
    ensures YuvStandardOf(BT601_625) == FromTriple((RgbSpaceOf(BT601_625), Transfer601And709, DifferenceFn601))
    ensures YuvStandardOf(BT709) == FromTriple((RgbSpaceOf(BT709), Transfer601And709, DifferenceFn709))
    ensures YuvStandardOf(BT2020) == FromTriple((RgbSpaceOf(BT2020), Transfer2020, DifferenceFn2020))
    ensures var triple := FromTriple((RgbSpaceOf(s), RgbStandardOf(s).transferFn, YuvStandardOf(s).differenceFn));
            YuvFromRgb(YuvStandardOf(s), pow, rgb) == YuvFromRgb(triple, pow, rgb)
            && RgbFromYuv(YuvStandardOf(s), pow, yuv) == RgbFromYuv(triple, pow, yuv)
  {
  }

  /** For every named standard, a linear pixel on the linear segment of its
      transfer function goes to YUV and back exactly, black maps to zero YUV,
      and the luma of an in-range encoded pixel is in [0, 1]. */
  lemma NamedStandardConversions(s: Standard, pow: Pow, rgb: Triple, encoded: Triple)
    ensures OnLinearSegment(YuvStandardOf(s).transferFn, rgb) ==>
              RgbFromYuv(YuvStandardOf(s), pow, YuvFromRgb(YuvStandardOf(s), pow, rgb)) == rgb
    ensures YuvFromRgb(YuvStandardOf(s), pow, [0.0, 0.0, 0.0]) == [0.0, 0.0, 0.0]
    ensures InUnitRange(encoded) ==>
              0.0 <= Luma(YuvStandardOf(s).differenceFn, encoded) <= 1.0
  {
    var y := YuvStandardOf(s);
    if OnLinearSegment(y.transferFn, rgb) {
      StandardRoundTrip(y, pow, rgb);
    }
    ZeroFixed(y.transferFn, pow);
    GreyIsAchromatic(y.differenceFn, 0.0);
    LumaOfGrey(y.differenceFn, 0.0);
    assert EncodeRgb(y.transferFn, pow, [0.0, 0.0, 0.0]) == [0.0, 0.0, 0.0];
  }
}
