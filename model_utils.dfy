/** The normalisation and bounds arithmetic of the model helpers: the ImageNet
    per-channel mean and standard deviation, the interval that raw pixels
    [0, 1] occupy in normalised space, the inverse mapping used for display,
    and the top-1 label of a logit vector. */
module ModelUtils {
  import opened TensorOps

  /** Number of colour channels the ImageNet statistics describe. */
  const Channels: nat := 3

  /** Mean and standard deviation as the statistics helper writes them. */
  const NormMean: seq<real> := [0.485, 0.456, 0.406]
  const NormStd: seq<real> := [0.229, 0.224, 0.225]

  /** The display helper writes the same constants out a second time. */
  const DisplayMean: seq<real> := [0.485, 0.456, 0.406]
  const DisplayStd: seq<real> := [0.229, 0.224, 0.225]

  /** Every element of t is tagged with one of the ImageNet channels. */
  predicate RgbTagged(t: Tensor) {
    forall i :: 0 <= i < |t.pixels| ==> t.pixels[i].channel < Channels
  }

  /** The per-channel (mean, std) pair: one mean in (0, 1) and one positive
      standard deviation per channel. */
  function ImagenetNormStats(): (stats: (seq<real>, seq<real>))
    ensures |stats.0| == Channels && |stats.1| == Channels
    ensures forall c :: 0 <= c < Channels ==> 0.0 < stats.0[c] < 1.0 && 0.0 < stats.1[c]
    ensures stats.0 == DisplayMean && stats.1 == DisplayStd
  {
    (NormMean, NormStd)
  }

  /** The forward normalisation of the preprocessing: raw value r of
      channel c mapped to `(r - mean_c) / std_c`. */
  function Normalize(c: nat, r: real): real
    requires c < Channels
  {
    (r - NormMean[c]) / NormStd[c]
  }

  /** Elementwise forward normalisation of a raw image. */
  function ToNormalized(t: Tensor): (n: Tensor)
    requires RgbTagged(t)
    ensures n.shape == t.shape && |n.pixels| == |t.pixels|
    ensures forall i :: 0 <= i < |t.pixels| ==> n.pixels[i].channel == t.pixels[i].channel
  {
    Tensor(t.shape, seq(|t.pixels|, i requires 0 <= i < |t.pixels| =>
      Pixel(t.pixels[i].channel, Normalize(t.pixels[i].channel, t.pixels[i].value))))
  }

  /** Normalisation with a positive std does not reverse order. */
  lemma NormalizeMonotone(c: nat, r: real, q: real)
    requires c < Channels && r <= q
    ensures Normalize(c, r) <= Normalize(c, q)
    ensures r < q ==> Normalize(c, r) < Normalize(c, q)
  {
  }

  /** The normalised-space interval of raw [0, 1]: per channel,
      `min_c` is where raw 0 lands and `max_c` where raw 1 lands, and
      `min_c < max_c`. */
  function NormalizedBoundsForImagenet(): (bounds: (seq<real>, seq<real>))
    ensures |bounds.0| == Channels && |bounds.1| == Channels
    ensures forall c :: 0 <= c < Channels ==> bounds.0[c] == Normalize(c, 0.0)
    ensures forall c :: 0 <= c < Channels ==> bounds.1[c] == Normalize(c, 1.0)
    ensures forall c :: 0 <= c < Channels ==> bounds.0[c] < bounds.1[c]
  {
    var (mean, std) := ImagenetNormStats();
    var lo := seq(Channels, c requires 0 <= c < Channels => (0.0 - mean[c]) / std[c]);
    var hi := seq(Channels, c requires 0 <= c < Channels => (1.0 - mean[c]) / std[c]);
    assert forall c :: 0 <= c < Channels ==> lo[c] < hi[c] by {
      forall c | 0 <= c < Channels
        ensures lo[c] < hi[c]
      {
        NormalizeMonotone(c, 0.0, 1.0);
      }
    }
    (lo, hi)
  }

  function MinBound(c: nat): real
    requires c < Channels
  {
    NormalizedBoundsForImagenet().0[c]
  }

  function MaxBound(c: nat): real
    requires c < Channels
  {
    NormalizedBoundsForImagenet().1[c]
  }

  /** Any raw value in [0, 1] normalises into [min_c, max_c]. */
  lemma NormalizeInBounds(c: nat, r: real)
    requires c < Channels && 0.0 <= r <= 1.0
    ensures MinBound(c) <= Normalize(c, r) <= MaxBound(c)
  {
  }

  /** The display inverse of one element: `v * std_c + mean_c`, then clamped to [0, 1]. */
  function DenormalizeValue(c: nat, v: real): (r: real)
    requires c < Channels
    ensures 0.0 <= r <= 1.0
  {
    Clamp(v * DisplayStd[c] + DisplayMean[c], 0.0, 1.0)
  }

  /** Maps a normalised image back to displayable raw values: same shape and
      channels, every value in [0, 1] whatever the input. */
  function DenormalizeToDisplay(t: Tensor): (d: Tensor)
    requires RgbTagged(t)
    ensures d.shape == t.shape && |d.pixels| == |t.pixels|
    ensures forall i :: 0 <= i < |t.pixels| ==> d.pixels[i].channel == t.pixels[i].channel
    ensures forall i :: 0 <= i < |d.pixels| ==> 0.0 <= d.pixels[i].value <= 1.0
  {
    Tensor(t.shape, seq(|t.pixels|, i requires 0 <= i < |t.pixels| =>
      Pixel(t.pixels[i].channel, DenormalizeValue(t.pixels[i].channel, t.pixels[i].value))))
  }

  /** A value inside [min_c, max_c] is not clipped by the display inverse:
      it comes back as exactly `v * std_c + mean_c` with the statistics'
      constants, and it lands inside [0, 1]. */
  lemma DenormalizeUnclipped(c: nat, v: real)
    requires c < Channels && MinBound(c) <= v <= MaxBound(c)
    ensures 0.0 <= v * NormStd[c] + NormMean[c] <= 1.0
    ensures DenormalizeValue(c, v) == v * NormStd[c] + NormMean[c]
  {
  }

  /** Display inverse after normalisation gives back the raw value. */
  lemma DenormalizeNormalize(c: nat, r: real)
    requires c < Channels && 0.0 <= r <= 1.0
    ensures DenormalizeValue(c, Normalize(c, r)) == r
  {
  }

  /** Normalisation after the display inverse gives back any value of [min_c, max_c]. */
  lemma NormalizeDenormalize(c: nat, v: real)
    requires c < Channels && MinBound(c) <= v <= MaxBound(c)
    ensures Normalize(c, DenormalizeValue(c, v)) == v
  {
  }

  /** A raw image with values in [0, 1] survives normalisation followed by
      the display inverse unchanged. */
  lemma DisplayRoundTrip(t: Tensor)
    requires RgbTagged(t)
    requires forall i :: 0 <= i < |t.pixels| ==> 0.0 <= t.pixels[i].value <= 1.0
    ensures DenormalizeToDisplay(ToNormalized(t)) == t
  {
  }

  /** The top-1 class of a logit vector: the first index of a maximal logit,
      and none for an empty vector. */
  function Top1LabelFromLogits(logits: seq<real>): (top: Option<nat>)
    ensures top.None? <==> |logits| == 0
    ensures top.Some? ==> IsFirstMax(logits, top.value)
  {
    Argmax(logits)
  }
}
