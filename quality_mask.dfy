/** The recommended quality mask of `create_output_product`
    (src/disp_s1/product.py:247-267). */
module QualityMask {
  import opened Wrappers

  /** Temporal coherence below this marks a pixel as low quality. */
  const CoherenceThreshold: real := 0.6
  /** Phase similarity below this marks a pixel as low quality. */
  const SimilarityThreshold: real := 0.5

  /** `a.filled(0)` on a masked integer raster. */
  function FilledInt(a: seq<Option<int>>, i: nat): int
    requires i < |a|
  {
    if a[i].None? then 0 else a[i].value
  }

  function FilledReal(a: seq<Option<real>>, i: nat): real
    requires i < |a|
  {
    if a[i].None? then 0.0 else a[i].value
  }

  /** `is_water`: a zero in the filled water mask (0 marks water, masked
      pixels read as 0); with no water-mask file nothing is water. */
  function IsWater(waterMask: Option<seq<Option<int>>>, n: nat): (r: seq<bool>)
    requires waterMask.Some? ==> |waterMask.value| == n
    ensures |r| == n
    ensures waterMask.None? ==> forall i | 0 <= i < n :: !r[i]
    ensures waterMask.Some? ==> forall i | 0 <= i < n :: r[i] <==> FilledInt(waterMask.value, i) == 0
  {
    match waterMask
    case None => seq(n, _ => false)
    case Some(w) => seq(n, i requires 0 <= i < n => FilledInt(w, i) == 0)
  }

  /** `bad_pixel_mask = is_water | is_zero_conncomp | is_low_quality`. */
  function BadPixelMask(coherence: seq<real>, conncomp: seq<Option<int>>, similarity: seq<Option<real>>,
                        waterMask: Option<seq<Option<int>>>): (r: seq<bool>)
    requires |conncomp| == |coherence| && |similarity| == |coherence|
    requires waterMask.Some? ==> |waterMask.value| == |coherence|
    ensures |r| == |coherence|
  {
    var isWater := IsWater(waterMask, |coherence|);
    seq(|coherence|, i requires 0 <= i < |coherence| =>
      var isZeroConncomp := FilledInt(conncomp, i) == 0;
      var badCoherence := coherence[i] < CoherenceThreshold;
      var badSimilarity := FilledReal(similarity, i) < SimilarityThreshold;
      isWater[i] || isZeroConncomp || (badCoherence && badSimilarity))
  }

  /** `recommended_mask = np.logical_not(bad_pixel_mask)`: a pixel is
      recommended exactly when it is not water, lies in a non-zero
      connected component, and has coherence at least 0.6 or similarity at
      least 0.5, masked readings counting as 0. */
  function RecommendedMask(coherence: seq<real>, conncomp: seq<Option<int>>, similarity: seq<Option<real>>,
                           waterMask: Option<seq<Option<int>>>): (r: seq<bool>)
    requires |conncomp| == |coherence| && |similarity| == |coherence|
    requires waterMask.Some? ==> |waterMask.value| == |coherence|
    ensures |r| == |coherence|
    ensures forall i | 0 <= i < |r| :: r[i] <==>
      && !(waterMask.Some? && FilledInt(waterMask.value, i) == 0)
      && FilledInt(conncomp, i) != 0
      && (coherence[i] >= 0.6 || FilledReal(similarity, i) >= 0.5)
  {
    var bad := BadPixelMask(coherence, conncomp, similarity, waterMask);
    seq(|bad|, i requires 0 <= i < |bad| => !bad[i])
  }

  /** The recommended mask is the exact complement of the bad-pixel mask
      the short-wavelength filter and its NaN masking use. */
  lemma RecommendedIsNotBad(coherence: seq<real>, conncomp: seq<Option<int>>, similarity: seq<Option<real>>,
                            waterMask: Option<seq<Option<int>>>)
    requires |conncomp| == |coherence| && |similarity| == |coherence|
    requires waterMask.Some? ==> |waterMask.value| == |coherence|
    ensures forall i | 0 <= i < |coherence| ::
      RecommendedMask(coherence, conncomp, similarity, waterMask)[i] !=
      BadPixelMask(coherence, conncomp, similarity, waterMask)[i]
  {
  }
}
