/**
 YUV standards: the composition of an RGB space, a transfer policy and a
 difference policy, and the analog conversion those three describe. The luma
 weights act on the gamma-encoded channels, after the transfer function; the
 blue and red difference signals are the encoded channel minus luma, each
 divided by its policy's divisor.

 A YCbCr standard pairs a YUV standard with a quantization policy, which is
 only a type parameter here.
 */
module Yuv {
  import opened Vectors
  import opened Transfer
  import opened Difference

  /** The three associated policies of a YUV standard. */
  datatype YuvStandard<R> = YuvStandard(rgbSpace: R, transferFn: TransferFn, differenceFn: DifferenceFn)

  /** The two associated policies of a YCbCr standard: a YUV standard over
      some RGB space, and a quantization policy. */
  datatype YCbCrStandard<R, Q> = YCbCrStandard(yuvStandard: YuvStandard<R>, quantizationFn: Q)

  /** Any (space, transfer, difference) triple is a YUV standard. */
  function FromTriple<R>(triple: (R, TransferFn, DifferenceFn)): (s: YuvStandard<R>)
    ensures s.rgbSpace == triple.0 && s.transferFn == triple.1 && s.differenceFn == triple.2
  {
    YuvStandard(triple.0, triple.1, triple.2)
  }

  /** Any (YUV standard, quantization) pair is a YCbCr standard. */
  function FromPair<R, Q>(pair: (YuvStandard<R>, Q)): (s: YCbCrStandard<R, Q>)
    ensures s.yuvStandard == pair.0 && s.quantizationFn == pair.1
  {
    YCbCrStandard(pair.0, pair.1)
  }

  /** The triple composition introduces nothing beyond its three parts: every
      YUV standard is the standard of its own triple, and distinct triples give
      distinct standards. */
  lemma TripleIsYuvStandard<R>(s: YuvStandard<R>, a: (R, TransferFn, DifferenceFn), b: (R, TransferFn, DifferenceFn))
    ensures FromTriple((s.rgbSpace, s.transferFn, s.differenceFn)) == s
    ensures FromTriple(a) == FromTriple(b) <==> a == b
  {
  }

  /** Likewise for the pair composition. */
  lemma PairIsYCbCrStandard<R, Q>(s: YCbCrStandard<R, Q>, a: (YuvStandard<R>, Q), b: (YuvStandard<R>, Q))
    ensures FromPair((s.yuvStandard, s.quantizationFn)) == s
    ensures FromPair(a) == FromPair(b) <==> a == b
  {
  }

  /** The transfer function applied to each channel of linear RGB. */
  function EncodeRgb(t: TransferFn, pow: Pow, rgb: Triple): Triple
  {
    [FromLinear(t, pow, rgb[0]), FromLinear(t, pow, rgb[1]), FromLinear(t, pow, rgb[2])]
  }

  /** The inverse transfer function applied to each encoded channel. */
  function DecodeRgb(t: TransferFn, pow: Pow, encoded: Triple): Triple
  {
    [IntoLinear(t, pow, encoded[0]), IntoLinear(t, pow, encoded[1]), IntoLinear(t, pow, encoded[2])]
  }

  /** Every channel is on the forward linear segment of `t`. */
  predicate OnLinearSegment(t: TransferFn, rgb: Triple)
  {
    forall i :: 0 <= i < 3 ==> LinearSegment(t, rgb[i])
  }

  /** Luma: the weighted sum of the encoded channels. For encoded channels in
      [0, 1] it lies between 0 and the sum of the weights, which is at most 1. */
  function Luma(d: DifferenceFn, encoded: Triple): (r: real)
    ensures InUnitRange(encoded) ==> 0.0 <= r <= Sum(Luminance(d)) <= 1.0
  {
    DotBounds(Luminance(d), encoded);
    WeightsValid(d);
    Dot(Luminance(d), encoded)
  }

  /** Encoded R'G'B' to (luma, normalized blue difference, normalized red
      difference). */
  function ToYuv(d: DifferenceFn, encoded: Triple): Triple
  {
    var y := Luma(d, encoded);
    [y, NormBlue(d, encoded[2] - y), NormRed(d, encoded[0] - y)]
  }

  /** (luma, blue difference, red difference) back to encoded R'G'B': red and
      blue from the denormalized differences, green from the luma equation. */
  function FromYuv(d: DifferenceFn, yuv: Triple): Triple
  {
    var w := Luminance(d);
    var y := yuv[0];
    var r := DenormRed(d, yuv[2]) + y;
    var b := DenormBlue(d, yuv[1]) + y;
    [r, (y - w[0] * r - w[2] * b) / w[1], b]
  }

  /** Linear RGB to analog YUV under a YUV standard. */
  function YuvFromRgb<R>(s: YuvStandard<R>, pow: Pow, rgb: Triple): Triple
  {
    ToYuv(s.differenceFn, EncodeRgb(s.transferFn, pow, rgb))
  }

  /** Analog YUV to linear RGB under a YUV standard. */
  function RgbFromYuv<R>(s: YuvStandard<R>, pow: Pow, yuv: Triple): Triple
  {
    DecodeRgb(s.transferFn, pow, FromYuv(s.differenceFn, yuv))
  }

  /** Decoding the YUV of an encoded pixel gives the pixel back exactly. */
  lemma EncodedRoundTrip(d: DifferenceFn, encoded: Triple)
    ensures FromYuv(d, ToYuv(d, encoded)) == encoded
  {
    var w := Luminance(d);
    var y := Luma(d, encoded);
    DotTriple(w, encoded);
    BlueNormInverse(d, encoded[2] - y, 0.0);
    RedNormInverse(d, encoded[0] - y, 0.0);
    var back := FromYuv(d, ToYuv(d, encoded));
    assert back[0] == encoded[0];
    assert back[2] == encoded[2];
    assert y - w[0] * encoded[0] - w[2] * encoded[2] == w[1] * encoded[1];
    assert back[1] == encoded[1];
  }

  /** Encoding the pixel a YUV triple decodes to gives the triple back exactly. */
  lemma YuvRoundTrip(d: DifferenceFn, yuv: Triple)
    ensures ToYuv(d, FromYuv(d, yuv)) == yuv
  {
    var w := Luminance(d);
    var e := FromYuv(d, yuv);
    DotTriple(w, e);
    assert w[1] * e[1] == yuv[0] - w[0] * e[0] - w[2] * e[2];
    assert Luma(d, e) == yuv[0];
    BlueNormInverse(d, yuv[1], 0.0);
    RedNormInverse(d, yuv[2], 0.0);
  }

  /** A grey pixel's luma is its level times the sum of the weights: equal to
      the level except under BT.709, where it is 0.99992 times the level. */
  lemma LumaOfGrey(d: DifferenceFn, v: real)
    ensures Luma(d, [v, v, v]) == v * Sum(Luminance(d))
    ensures d != DifferenceFn709 ==> Luma(d, [v, v, v]) == v
    ensures d == DifferenceFn709 ==> Luma(d, [v, v, v]) == 0.99992 * v
  {
    assert [v, v, v] == Constant(3, v);
    DotConstant(Luminance(d), v);
    WeightsValid(d);
  }

  /** A grey pixel has zero colour difference exactly when the weights sum to
      one or the level is zero; under BT.709 a non-zero grey keeps a residual
      chroma. */
  lemma GreyIsAchromatic(d: DifferenceFn, v: real)
    ensures ToYuv(d, [v, v, v])[1] == 0.0 <==> d != DifferenceFn709 || v == 0.0
    ensures ToYuv(d, [v, v, v])[2] == 0.0 <==> d != DifferenceFn709 || v == 0.0
  {
    LumaOfGrey(d, v);
    BlueNormInverse(d, v - Luma(d, [v, v, v]), 0.0);
    RedNormInverse(d, v - Luma(d, [v, v, v]), 0.0);
  }

  /** For encoded channels in [0, 1], both normalized differences lie in
      [-0.5, 0.5], except the BT.709 blue difference, which can reach
      0.92788 / 1.8556, slightly above 0.5. */
  lemma ChromaRange(d: DifferenceFn, encoded: Triple)
    requires InUnitRange(encoded)
    ensures -0.5 <= ToYuv(d, encoded)[2] <= 0.5
    ensures -0.5 <= ToYuv(d, encoded)[1]
    ensures d != DifferenceFn709 ==> ToYuv(d, encoded)[1] <= 0.5
    ensures ToYuv(d, encoded)[1] <= 0.92788 / 1.8556
  {
    var w := Luminance(d);
    DotTriple(w, encoded);
    assert 0.0 <= encoded[0] <= 1.0 && 0.0 <= encoded[1] <= 1.0 && 0.0 <= encoded[2] <= 1.0;
  }

  /** Pure blue under BT.709 leaves the nominal chroma range. */
  lemma Bt709BlueOutOfRange()
    ensures InUnitRange([0.0, 0.0, 1.0])
    ensures ToYuv(DifferenceFn709, [0.0, 0.0, 1.0])[1] > 0.5
  {
    DotTriple(Luminance(DifferenceFn709), [0.0, 0.0, 1.0]);
  }

  /** On the linear segment of the transfer function, weighting the encoded
      channels equals encoding (4.5 times) the weighted linear channels, so the
      order of transfer and weighting only matters on the power segment. */
  lemma LumaOnLinearSegment(t: TransferFn, pow: Pow, d: DifferenceFn, rgb: Triple)
    requires OnLinearSegment(t, rgb)
    ensures Luma(d, EncodeRgb(t, pow, rgb)) == Slope * Dot(Luminance(d), rgb)
  {
    assert LinearSegment(t, rgb[0]) && LinearSegment(t, rgb[1]) && LinearSegment(t, rgb[2]);
    assert EncodeRgb(t, pow, rgb) == Scale(Slope, rgb);
    DotScale(Luminance(d), Slope, rgb);
  }

  /** Under any YUV standard, a linear pixel whose channels are on the linear
      segment survives the whole conversion to YUV and back exactly. */
  lemma StandardRoundTrip<R>(s: YuvStandard<R>, pow: Pow, rgb: Triple)
    requires OnLinearSegment(s.transferFn, rgb)
    ensures RgbFromYuv(s, pow, YuvFromRgb(s, pow, rgb)) == rgb
  {
    var t := s.transferFn;
    EncodedRoundTrip(s.differenceFn, EncodeRgb(t, pow, rgb));
    assert LinearSegment(t, rgb[0]) && LinearSegment(t, rgb[1]) && LinearSegment(t, rgb[2]);
  }
}
