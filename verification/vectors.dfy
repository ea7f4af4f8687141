/**
 Three-component real vectors: the model of the `[T; 3]` arrays that carry
 luminance weights and colour samples, with the sum and dot product that the
 luminance transform is built from.
 */
module Vectors {

  /** A three-component sample or weight vector. */
  type Triple = s: seq<real> | |s| == 3 witness [0.0, 0.0, 0.0]

  /** Sum of the components. */
  function Sum(s: seq<real>): real
  {
    if |s| == 0 then 0.0 else s[0] + Sum(s[1..])
  }

  /** Dot product of two vectors of the same length. */
  function Dot(w: seq<real>, c: seq<real>): real
    requires |w| == |c|
  {
    if |w| == 0 then 0.0 else w[0] * c[0] + Dot(w[1..], c[1..])
  }

  /** Every component multiplied by `k`. */
  function Scale(k: real, c: seq<real>): seq<real>
  {
    seq(|c|, i requires 0 <= i < |c| => k * c[i])
  }

  /** The vector of length `n` whose every component is `v`. */
  function Constant(n: nat, v: real): seq<real>
  {
    seq(n, i => v)
  }

  /** All components are non-negative. */
  predicate NonNegative(s: seq<real>)
  {
    forall i :: 0 <= i < |s| ==> 0.0 <= s[i]
  }

  /** All components lie in the closed unit interval. */
  predicate InUnitRange(s: seq<real>)
  {
    forall i :: 0 <= i < |s| ==> 0.0 <= s[i] <= 1.0
  }

  lemma {:induction false} SumTriple(s: Triple)
    ensures Sum(s) == s[0] + s[1] + s[2]
  {
    assert s[1..][1..][1..] == [];
    assert Sum(s[1..][1..]) == s[2];
    assert Sum(s[1..]) == s[1] + s[2];
  }

  lemma {:induction false} DotTriple(w: Triple, c: Triple)
    ensures Dot(w, c) == w[0] * c[0] + w[1] * c[1] + w[2] * c[2]
  {
    assert w[1..][1..][1..] == [];
    assert Dot(w[1..][1..], c[1..][1..]) == w[2] * c[2];
    assert Dot(w[1..], c[1..]) == w[1] * c[1] + w[2] * c[2];
  }

  /** With non-negative weights and components in [0, 1], the dot product lies
      between 0 and the sum of the weights. */
  lemma {:induction false} DotBounds(w: seq<real>, c: seq<real>)
    requires |w| == |c|
    requires NonNegative(w)
    ensures InUnitRange(c) ==> 0.0 <= Dot(w, c) <= Sum(w)
  {
    if |w| > 0 && InUnitRange(c) {
      assert NonNegative(w[1..]) by {
        forall i | 0 <= i < |w[1..]| ensures 0.0 <= w[1..][i] {
          assert w[1..][i] == w[i + 1];
        }
      }
      assert InUnitRange(c[1..]) by {
        forall i | 0 <= i < |c[1..]| ensures 0.0 <= c[1..][i] <= 1.0 {
          assert c[1..][i] == c[i + 1];
        }
      }
      DotBounds(w[1..], c[1..]);
      assert 0.0 <= w[0] && 0.0 <= c[0] <= 1.0;
      assert 0.0 <= w[0] * c[0] <= w[0] by {
        assert w[0] * (1.0 - c[0]) >= 0.0;
      }
      assert Dot(w, c) == w[0] * c[0] + Dot(w[1..], c[1..]);
      assert Sum(w) == w[0] + Sum(w[1..]);
    }
  }

  /** Scaling the components scales the dot product: a weighted sum commutes
      with a common gain. */
  lemma {:induction false} DotScale(w: seq<real>, k: real, c: seq<real>)
    requires |w| == |c|
    ensures Dot(w, Scale(k, c)) == k * Dot(w, c)
  {
    if |w| > 0 {
      assert Scale(k, c)[1..] == Scale(k, c[1..]) by {
        forall i | 0 <= i < |c| - 1 ensures Scale(k, c)[1..][i] == Scale(k, c[1..])[i] {
          assert Scale(k, c)[1..][i] == k * c[i + 1];
        }
      }
      DotScale(w[1..], k, c[1..]);
      assert w[0] * (k * c[0]) == k * (w[0] * c[0]);
    }
  }

  /** The dot product with a constant vector is that constant times the sum
      of the weights. */
  lemma {:induction false} DotConstant(w: seq<real>, v: real)
    ensures Dot(w, Constant(|w|, v)) == v * Sum(w)
  {
    if |w| > 0 {
      assert Constant(|w|, v)[1..] == Constant(|w[1..]|, v);
      DotConstant(w[1..], v);
    }
  }
}
