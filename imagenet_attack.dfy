/** The attack wired as the service and the evaluation harness wire it: the
    clamp bounds are the ImageNet normalised-space bounds, the input is a raw
    image normalised by the preprocessing, and the adversarial image is
    brought back for display by the denormalising helper. */
module ImagenetAttack {
  import opened TensorOps
  import opened ModelUtils
  import opened Fgsm

  /** The clamp bounds handed to the attack: per channel, the normalised-space
      image of raw 0 and of raw 1. */
  function ImagenetClampBounds(): (bounds: (Bound, Bound))
    ensures Fits(bounds.0, Channels) && Fits(bounds.1, Channels)
    ensures forall c :: 0 <= c < Channels ==>
      Covers(bounds.0, c) && Covers(bounds.1, c)
      && BoundAt(bounds.0, c) == MinBound(c) && BoundAt(bounds.1, c) == MaxBound(c)
  {
    var (lo, hi) := NormalizedBoundsForImagenet();
    (PerChannel(lo), PerChannel(hi))
  }

  /** A successful attack with the ImageNet bounds was run on an image of
      exactly the three ImageNet channels. */
  lemma ImagenetRunIsRgb(logits: Logits, grad: InputGradient, epsilon: real, image: Tensor, givenLabel: Option<int>)
    requires WellTagged(image)
    requires RunSpec(logits, grad, epsilon, ImagenetClampBounds().0, ImagenetClampBounds().1, image, givenLabel).Ok?
    ensures image.shape[1] == Channels && RgbTagged(image)
    ensures BoundsOrdered(image, ImagenetClampBounds().0, ImagenetClampBounds().1)
  {
  }

  /** A raw image with values in [0, 1] normalises into the ImageNet clamp bounds. */
  lemma NormalizedImageInBounds(raw: Tensor)
    requires RgbTagged(raw)
    requires forall i :: 0 <= i < |raw.pixels| ==> 0.0 <= raw.pixels[i].value <= 1.0
    ensures InBounds(ToNormalized(raw), ImagenetClampBounds().0, ImagenetClampBounds().1)
  {
  }

  /** The adversarial image of an attack with the ImageNet bounds is
      displayed without clipping: each element comes back as exactly
      `v * std_c + mean_c`. */
  lemma AdversarialDisplaysUnclipped(logits: Logits, grad: InputGradient, epsilon: real, image: Tensor, givenLabel: Option<int>)
    requires WellTagged(image)
    requires RunSpec(logits, grad, epsilon, ImagenetClampBounds().0, ImagenetClampBounds().1, image, givenLabel).Ok?
    ensures var adv := RunSpec(logits, grad, epsilon, ImagenetClampBounds().0, ImagenetClampBounds().1, image, givenLabel).result.adversarialImage;
      RgbTagged(adv)
      && forall i :: 0 <= i < |adv.pixels| ==>
           DenormalizeToDisplay(adv).pixels[i].value
           == adv.pixels[i].value * NormStd[adv.pixels[i].channel] + NormMean[adv.pixels[i].channel]
  {
  }

  /** An epsilon-0 attack on a normalised (1, 3, H, W) raw image raises no
      error once the clean logits name a class and a supplied label is one of
      them; it displays the raw image itself and is not a success. */
  lemma ZeroEpsilonDisplaysOriginal(logits: Logits, grad: InputGradient, raw: Tensor, givenLabel: Option<int>)
    requires RgbTagged(raw) && WellTagged(raw) && ValidShape(raw) && raw.shape[1] == Channels
    requires forall i :: 0 <= i < |raw.pixels| ==> 0.0 <= raw.pixels[i].value <= 1.0
    requires CleanOk(logits, ToNormalized(raw)) && LabelOk(logits, ToNormalized(raw), givenLabel)
    ensures RunSpec(logits, grad, 0.0, ImagenetClampBounds().0, ImagenetClampBounds().1, ToNormalized(raw), givenLabel).Ok?
    ensures var res := RunSpec(logits, grad, 0.0, ImagenetClampBounds().0, ImagenetClampBounds().1, ToNormalized(raw), givenLabel).result;
      RgbTagged(res.adversarialImage) && DenormalizeToDisplay(res.adversarialImage) == raw && !res.success
  {
    var (lo, hi) := ImagenetClampBounds();
    var image := ToNormalized(raw);
    NormalizedImageInBounds(raw);
    ClampImageInBounds(image, lo, hi);
    NoStepRun(logits, grad, 0.0, lo, hi, image, givenLabel);
    DisplayRoundTrip(raw);
  }
}
