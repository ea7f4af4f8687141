/**
 The colour-difference policies of BT.601, BT.709 and BT.2020: a vector of
 luminance weights applied to the gamma-encoded channels, and a divisor for
 each of the blue and red difference signals that renormalizes them
 (sections 2.5.1 and 2.5.2 of ITU-R BT.601, item 3.2 of ITU-R BT.709, Table 4
 of ITU-R BT.2020).
 */
module Difference {
  import opened Vectors

  /** The three difference policies. */
  datatype DifferenceFn = DifferenceFn601 | DifferenceFn709 | DifferenceFn2020

  /** BT.601 primary luminances, also its difference weights. */
  const Bt601Luminance: Triple := [0.2990, 0.5870, 0.1140]
  const Bt601BlueNorm: real := 1.772
  const Bt601RedNorm: real := 1.402

  /** BT.709 primary luminances, derived from the primaries. They feed the
      primaries only and are not the difference weights below. */
  const Bt709Luminance: Triple := [0.212656, 0.715158, 0.072186]
  /** BT.709 weights used for the luma of the difference signals. */
  const Bt709Weights: Triple := [0.2126, 0.7152, 0.07212]
  const Bt709BlueNorm: real := 1.8556
  const Bt709RedNorm: real := 1.5748

  /** BT.2020 luminance weights. */
  const Bt2020Weights: Triple := [0.2627, 0.6780, 0.0593]
  const Bt2020BlueNorm: real := 1.8814
  const Bt2020RedNorm: real := 1.4746

  /** The weights of the luminance transform, in red, green, blue order. No
      weight is negative and the green weight, which a decoder divides by, is
      positive. */
  function Luminance(d: DifferenceFn): (w: Triple)
    ensures NonNegative(w) && w[1] > 0.0
  {
    match d
    case DifferenceFn601 => Bt601Luminance
    case DifferenceFn709 => Bt709Weights
    case DifferenceFn2020 => Bt2020Weights
  }

  /** Divisor of the blue difference signal. */
  function BlueNorm(d: DifferenceFn): (n: real)
    ensures n > 1.0
  {
    match d
    case DifferenceFn601 => Bt601BlueNorm
    case DifferenceFn709 => Bt709BlueNorm
    case DifferenceFn2020 => Bt2020BlueNorm
  }

  /** Divisor of the red difference signal. */
  function RedNorm(d: DifferenceFn): (n: real)
    ensures n > 1.0
  {
    match d
    case DifferenceFn601 => Bt601RedNorm
    case DifferenceFn709 => Bt709RedNorm
    case DifferenceFn2020 => Bt2020RedNorm
  }

  /** Normalizes a blue difference signal: the result scaled back by the
      divisor is the input, it has the input's sign, and it is smaller in
      magnitude. */
  function NormBlue(d: DifferenceFn, denorm: real): (r: real)
    ensures r * BlueNorm(d) == denorm
    ensures (r < 0.0 <==> denorm < 0.0) && (r == 0.0 <==> denorm == 0.0)
    ensures denorm > 0.0 ==> r < denorm
    ensures denorm < 0.0 ==> denorm < r
  {
    denorm / BlueNorm(d)
  }

  /** Denormalizes a blue difference signal: dividing the result by the
      divisor gives the input back, the sign is kept and the magnitude grows. */
  function DenormBlue(d: DifferenceFn, norm: real): (r: real)
    ensures r / BlueNorm(d) == norm
    ensures (r < 0.0 <==> norm < 0.0) && (r == 0.0 <==> norm == 0.0)
    ensures norm > 0.0 ==> norm < r
    ensures norm < 0.0 ==> r < norm
  {
    norm * BlueNorm(d)
  }

  /** Normalizes a red difference signal, with the same guarantees as the blue
      one under the red divisor. */
  function NormRed(d: DifferenceFn, denorm: real): (r: real)
    ensures r * RedNorm(d) == denorm
    ensures (r < 0.0 <==> denorm < 0.0) && (r == 0.0 <==> denorm == 0.0)
    ensures denorm > 0.0 ==> r < denorm
    ensures denorm < 0.0 ==> denorm < r
  {
    denorm / RedNorm(d)
  }

  /** Denormalizes a red difference signal, with the same guarantees as the
      blue one under the red divisor. */
  function DenormRed(d: DifferenceFn, norm: real): (r: real)
    ensures r / RedNorm(d) == norm
    ensures (r < 0.0 <==> norm < 0.0) && (r == 0.0 <==> norm == 0.0)
    ensures norm > 0.0 ==> norm < r
    ensures norm < 0.0 ==> r < norm
  {
    norm * RedNorm(d)
  }

  /** Blue normalization and denormalization are exact inverses, and
      normalization is strictly increasing and keeps the sign. */
  lemma BlueNormInverse(d: DifferenceFn, x: real, y: real)
    ensures DenormBlue(d, NormBlue(d, x)) == x
    ensures NormBlue(d, DenormBlue(d, x)) == x
    ensures x < y ==> NormBlue(d, x) < NormBlue(d, y)
    ensures (NormBlue(d, x) < 0.0 <==> x < 0.0) && (NormBlue(d, x) == 0.0 <==> x == 0.0)
  {
  }

  /** Red normalization and denormalization are exact inverses, and
      normalization is strictly increasing and keeps the sign. */
  lemma RedNormInverse(d: DifferenceFn, x: real, y: real)
    ensures DenormRed(d, NormRed(d, x)) == x
    ensures NormRed(d, DenormRed(d, x)) == x
    ensures x < y ==> NormRed(d, x) < NormRed(d, y)
    ensures (NormRed(d, x) < 0.0 <==> x < 0.0) && (NormRed(d, x) == 0.0 <==> x == 0.0)
  {
  }

  /** Every policy's weights sum to at most one; they sum to exactly one for
      all but BT.709, whose weights sum to 0.99992. */
  lemma WeightsValid(d: DifferenceFn)
    ensures Sum(Luminance(d)) <= 1.0
    ensures Sum(Luminance(d)) == 1.0 <==> d != DifferenceFn709
    ensures d == DifferenceFn709 ==> Sum(Luminance(d)) == 0.99992
  {
    SumTriple(Luminance(d));
  }

  /** Each red divisor is twice one minus the red weight, which maps the red
      difference of encoded channels in [0, 1] onto [-0.5, 0.5]. The blue
      divisor has the same relation to the blue weight except under BT.709,
      whose blue weight 0.07212 would call for 1.85576 instead of 1.8556. */
  lemma NormsFromWeights(d: DifferenceFn)
    ensures RedNorm(d) == 2.0 * (1.0 - Luminance(d)[0])
    ensures BlueNorm(d) == 2.0 * (1.0 - Luminance(d)[2]) <==> d != DifferenceFn709
    ensures d == DifferenceFn709 ==> BlueNorm(d) < 2.0 * (1.0 - Luminance(d)[2])
  {
  }

  /** The BT.709 weights of item 3.2 of ITU-R BT.709, whose blue weight is
      0.0722 where the code has 0.07212. */
  const Bt709Item32Weights: Triple := [0.2126, 0.7152, 0.0722]

  /** The code's BT.709 divisors are exactly the ones the item 3.2 weights call
      for, and those weights sum to one; the code's weights differ from them
      in the blue component only, by 0.00008. */
  lemma Bt709DivisorsFitItem32Weights()
    ensures Sum(Bt709Item32Weights) == 1.0
    ensures BlueNorm(DifferenceFn709) == 2.0 * (1.0 - Bt709Item32Weights[2])
    ensures RedNorm(DifferenceFn709) == 2.0 * (1.0 - Bt709Item32Weights[0])
    ensures Luminance(DifferenceFn709)[0] == Bt709Item32Weights[0]
    ensures Luminance(DifferenceFn709)[1] == Bt709Item32Weights[1]
    ensures Bt709Item32Weights[2] - Luminance(DifferenceFn709)[2] == 0.00008
  {
    SumTriple(Bt709Item32Weights);
  }

  /** The BT.709 primary luminances sum to one and differ from the BT.709
      difference weights, in every component. */
  lemma Bt709LuminancesDistinct()
    ensures Sum(Bt709Luminance) == 1.0
    ensures forall i :: 0 <= i < 3 ==> Bt709Luminance[i] != Bt709Weights[i]
  {
    SumTriple(Bt709Luminance);
  }
}
