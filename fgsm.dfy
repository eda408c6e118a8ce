/** The Fast Gradient Sign Method step: an attack object configured once with
    a classifier, a budget epsilon and clamp bounds, whose `Run` classifies an
    image, moves every element by epsilon in the direction of the sign of the
    loss gradient, clamps the result into the bounds and classifies again.
    The classifier's logits and its input gradient are parameters of the
    model: functions the attack calls but does not look inside. */
module Fgsm {
  import opened TensorOps

  /** Logits of a batch-of-one image: one score per class. */
  type Logits = Tensor -> seq<real>

  /** Gradient of the cross-entropy loss at (image, target class) with respect
      to the element of the image at the given storage index. */
  type InputGradient = (Tensor, nat, nat) -> real

  /** A clamp bound as the attack accepts it: a plain number; a 0-dim tensor,
      which `torch.clamp` also takes where it expects a number; or a tensor of
      one or more dimensions holding one value (shape (1, 1, 1, 1)) or one
      value per channel (shape (1, C, 1, 1)). */
  datatype Bound = Scalar(value: real) | ZeroDim(value: real) | PerChannel(values: seq<real>)

  /** The bound broadcasts against an image with `channels` channels. */
  predicate Fits(b: Bound, channels: nat) {
    !b.PerChannel? || |b.values| == 1 || |b.values| == channels
  }

  /** `torch.clamp` takes both bounds as numbers or both as tensors, and a
      0-dim tensor passes as either; a number paired with a tensor of one or
      more dimensions matches neither form and is rejected. */
  predicate SameKind(lo: Bound, hi: Bound) {
    !(lo.Scalar? && hi.PerChannel?) && !(lo.PerChannel? && hi.Scalar?)
  }

  /** The bound has a value for channel c. */
  predicate Covers(b: Bound, c: nat) {
    !b.PerChannel? || |b.values| == 1 || c < |b.values|
  }

  /** The bound's value for channel c, after broadcasting. */
  function BoundAt(b: Bound, c: nat): (r: real)
    requires Covers(b, c)
    ensures !b.PerChannel? ==> r == b.value
    ensures b.PerChannel? ==> r in b.values
    ensures b.PerChannel? && |b.values| == 1 ==> r == b.values[0]
    ensures b.PerChannel? && |b.values| != 1 ==> r == b.values[c]
  {
    match b
    case Scalar(v) => v
    case ZeroDim(v) => v
    case PerChannel(vs) => if |vs| == 1 then vs[0] else vs[c]
  }

  /** The bound has a value for every element of t. */
  predicate Covered(t: Tensor, b: Bound) {
    forall i :: 0 <= i < |t.pixels| ==> Covers(b, t.pixels[i].channel)
  }

  /** A bound that broadcasts over the channels of a well-tagged (1, C, H, W)
      image has a value for every one of its elements. */
  lemma FitsCovered(image: Tensor, b: Bound)
    requires WellTagged(image) && |image.shape| == 4 && Fits(b, image.shape[1])
    ensures Covered(image, b)
  {
  }

  /** For every element of t, the lower bound of its channel is not above the upper one. */
  predicate BoundsOrdered(t: Tensor, lo: Bound, hi: Bound) {
    forall i :: 0 <= i < |t.pixels| ==>
      Covers(lo, t.pixels[i].channel) && Covers(hi, t.pixels[i].channel)
      && BoundAt(lo, t.pixels[i].channel) <= BoundAt(hi, t.pixels[i].channel)
  }

  /** Every element of t lies within the bounds of its channel. */
  predicate InBounds(t: Tensor, lo: Bound, hi: Bound) {
    forall i :: 0 <= i < |t.pixels| ==>
      Covers(lo, t.pixels[i].channel) && Covers(hi, t.pixels[i].channel)
      && BoundAt(lo, t.pixels[i].channel) <= t.pixels[i].value <= BoundAt(hi, t.pixels[i].channel)
  }

  /** The only shape the attack accepts: rank 4 with a batch of one, (1, C, H, W). */
  predicate ValidShape(t: Tensor) {
    |t.shape| == 4 && t.shape[0] == 1
  }

  /** The record one attack produces. */
  datatype AttackResult = AttackResult(adversarialImage: Tensor, cleanPred: nat, advPred: nat, success: bool)

  /** The ways an attack can fail: a wrongly shaped image; logits with no class
      (the argmax has nothing to reduce); a supplied label outside the classes
      (the loss rejects it); clamp bounds that do not broadcast over the
      channels, or that mix a number with a tensor. */
  datatype AttackError = ShapeError | EmptyLogits | TargetOutOfRange | BoundsMismatch

  datatype RunResult = Ok(result: AttackResult) | Err(error: AttackError)

  /** The unclamped FGSM step of one element: `x + epsilon * sign(g)`. The
      element moves by exactly -epsilon, 0 or +epsilon: up where the gradient
      is positive, down where it is negative, and not at all where it is 0. */
  function Step(x: real, epsilon: real, g: real): (r: real)
    ensures g > 0.0 ==> r == x + epsilon
    ensures g < 0.0 ==> r == x - epsilon
    ensures g == 0.0 ==> r == x
  {
    x + epsilon * Sign(g)
  }

  /** One adversarial element: the FGSM step clamped into [lo, hi]. It lies in
      [lo, hi] when the bounds are ordered, and it is at most |epsilon| away
      from an x that was already in bounds. */
  function AdvElement(x: real, epsilon: real, g: real, lo: real, hi: real): (r: real)
    ensures lo <= hi ==> lo <= r <= hi
    ensures lo <= x <= hi ==> Abs(r - x) <= Abs(epsilon)
  {
    StepWithinEpsilon(x, epsilon, g);
    Clamp(Step(x, epsilon, g), lo, hi)
  }

  /** The clean image clamped elementwise into the bounds of each channel. */
  function ClampImage(image: Tensor, lo: Bound, hi: Bound): (c: Tensor)
    requires Covered(image, lo) && Covered(image, hi)
    ensures c.shape == image.shape && |c.pixels| == |image.pixels|
    ensures forall i :: 0 <= i < |image.pixels| ==> c.pixels[i].channel == image.pixels[i].channel
    ensures BoundsOrdered(image, lo, hi) ==> InBounds(c, lo, hi)
  {
    var c := Tensor(image.shape, seq(|image.pixels|, i requires 0 <= i < |image.pixels| =>
      var p := image.pixels[i];
      Pixel(p.channel, Clamp(p.value, BoundAt(lo, p.channel), BoundAt(hi, p.channel)))));
    assert BoundsOrdered(image, lo, hi) ==> InBounds(c, lo, hi) by {
      if BoundsOrdered(image, lo, hi) {
        forall i | 0 <= i < |c.pixels|
          ensures BoundAt(lo, c.pixels[i].channel) <= c.pixels[i].value <= BoundAt(hi, c.pixels[i].channel)
        {
          var p := image.pixels[i];
          assert c.pixels[i] == Pixel(p.channel, Clamp(p.value, BoundAt(lo, p.channel), BoundAt(hi, p.channel)));
        }
      }
    }
    c
  }

  /** The adversarial image for a loss target: every element stepped by epsilon
      along the sign of its gradient and clamped into its channel's bounds. */
  function AdvImage(image: Tensor, grad: InputGradient, target: nat, epsilon: real, lo: Bound, hi: Bound): (adv: Tensor)
    requires Covered(image, lo) && Covered(image, hi)
    ensures adv.shape == image.shape && |adv.pixels| == |image.pixels|
    ensures forall i :: 0 <= i < |image.pixels| ==> adv.pixels[i].channel == image.pixels[i].channel
    ensures BoundsOrdered(image, lo, hi) ==> InBounds(adv, lo, hi)
  {
    var adv := Tensor(image.shape, seq(|image.pixels|, i requires 0 <= i < |image.pixels| =>
      var p := image.pixels[i];
      Pixel(p.channel, AdvElement(p.value, epsilon, grad(image, target, i), BoundAt(lo, p.channel), BoundAt(hi, p.channel)))));
    assert BoundsOrdered(image, lo, hi) ==> InBounds(adv, lo, hi) by {
      if BoundsOrdered(image, lo, hi) {
        forall i | 0 <= i < |adv.pixels|
          ensures BoundAt(lo, adv.pixels[i].channel) <= adv.pixels[i].value <= BoundAt(hi, adv.pixels[i].channel)
        {
          var p := image.pixels[i];
          var l, h := BoundAt(lo, p.channel), BoundAt(hi, p.channel);
          assert l <= h;
          assert adv.pixels[i] == Pixel(p.channel, AdvElement(p.value, epsilon, grad(image, target, i), l, h));
        }
      }
    }
    adv
  }

  /** The class the loss is taken against: the supplied label, or else the
      clean prediction itself. */
  function LossTarget(givenLabel: Option<int>, cleanPred: nat): (target: int)
    ensures givenLabel.None? ==> target == cleanPred
    ensures givenLabel.Some? ==> target == givenLabel.value
  {
    match givenLabel
    case None => cleanPred
    case Some(l) => l
  }

  /** The image is well shaped and the clean logits name at least one class. */
  predicate CleanOk(logits: Logits, image: Tensor) {
    ValidShape(image) && |logits(image)| > 0
  }

  /** A supplied label is one of the classes of the clean logits. */
  predicate LabelOk(logits: Logits, image: Tensor, givenLabel: Option<int>) {
    givenLabel.None? || 0 <= givenLabel.value < |logits(image)|
  }

  /** The clamp bounds are of one kind and both broadcast over the image's channels. */
  predicate BoundsFit(image: Tensor, clampMin: Bound, clampMax: Bound)
    requires ValidShape(image)
  {
    SameKind(clampMin, clampMax) && Fits(clampMin, image.shape[1]) && Fits(clampMax, image.shape[1])
  }

  /** The clean prediction: the top-1 class of the clean logits. */
  function CleanPred(logits: Logits, image: Tensor): (pred: nat)
    requires CleanOk(logits, image)
    ensures IsFirstMax(logits(image), pred)
  {
    Argmax(logits(image)).value
  }

  /** The adversarial image an attack forms once every check before the
      second forward pass has passed: the FGSM image for the loss target. */
  function AdvFor(logits: Logits, grad: InputGradient, epsilon: real, clampMin: Bound, clampMax: Bound,
                  image: Tensor, givenLabel: Option<int>): (adv: Tensor)
    requires WellTagged(image) && CleanOk(logits, image) && LabelOk(logits, image, givenLabel)
    requires BoundsFit(image, clampMin, clampMax)
    ensures Covered(image, clampMin) && Covered(image, clampMax)
  {
    FitsCovered(image, clampMin);
    FitsCovered(image, clampMax);
    AdvImage(image, grad, LossTarget(givenLabel, CleanPred(logits, image)) as nat, epsilon, clampMin, clampMax)
  }

  /** One attack, as a function of the classifier, the configuration, the
      image and the optional label. Each error happens exactly at its own
      step: ShapeError on a wrongly shaped image; EmptyLogits when the clean
      or the adversarial logits name no class; TargetOutOfRange when a
      supplied label is not a class; BoundsMismatch when a bound does not
      broadcast over the channels or a number is paired with a tensor of one
      or more dimensions; and otherwise the attack succeeds. On success the
      clean and adversarial predictions are the top-1 classes of the clean
      and the adversarial logits, the adversarial image is the FGSM image for
      the loss target, it has the input's shape and lies within ordered
      bounds, and `success` says exactly that the two predictions differ. */
  function RunSpec(logits: Logits, grad: InputGradient, epsilon: real, clampMin: Bound, clampMax: Bound,
                   image: Tensor, givenLabel: Option<int>): (r: RunResult)
    requires WellTagged(image)
    ensures r == Err(ShapeError) <==> !ValidShape(image)
    ensures r == Err(TargetOutOfRange) <==> CleanOk(logits, image) && !LabelOk(logits, image, givenLabel)
    ensures r == Err(BoundsMismatch) <==>
      CleanOk(logits, image) && LabelOk(logits, image, givenLabel) && !BoundsFit(image, clampMin, clampMax)
    ensures r == Err(EmptyLogits) <==>
      ValidShape(image)
      && (|logits(image)| == 0
          || (LabelOk(logits, image, givenLabel) && BoundsFit(image, clampMin, clampMax)
              && |logits(AdvFor(logits, grad, epsilon, clampMin, clampMax, image, givenLabel))| == 0))
    ensures r.Ok? <==>
      CleanOk(logits, image) && LabelOk(logits, image, givenLabel) && BoundsFit(image, clampMin, clampMax)
      && |logits(AdvFor(logits, grad, epsilon, clampMin, clampMax, image, givenLabel))| > 0
    ensures r.Ok? ==> ValidShape(image) && Argmax(logits(image)) == Some(r.result.cleanPred)
    ensures r.Ok? ==> givenLabel.None? || 0 <= givenLabel.value < |logits(image)|
    ensures r.Ok? ==> (Covered(image, clampMin) && Covered(image, clampMax)
      && r.result.adversarialImage
         == AdvImage(image, grad, LossTarget(givenLabel, r.result.cleanPred) as nat, epsilon, clampMin, clampMax))
    ensures r.Ok? ==> Argmax(logits(r.result.adversarialImage)) == Some(r.result.advPred)
    ensures r.Ok? ==> (r.result.success <==> r.result.advPred != r.result.cleanPred)
    ensures r.Ok? ==> (r.result.adversarialImage.shape == image.shape
      && |r.result.adversarialImage.pixels| == |image.pixels|)
    ensures r.Ok? && BoundsOrdered(image, clampMin, clampMax) ==> InBounds(r.result.adversarialImage, clampMin, clampMax)
  {
    if !ValidShape(image) then Err(ShapeError)
    else
      match Argmax(logits(image))
      case None => Err(EmptyLogits)
      case Some(cleanPred) =>
        if givenLabel.Some? && !(0 <= givenLabel.value < |logits(image)|) then Err(TargetOutOfRange)
        else if !SameKind(clampMin, clampMax) || !Fits(clampMin, image.shape[1]) || !Fits(clampMax, image.shape[1]) then
          Err(BoundsMismatch)
        else
          var adv := AdvImage(image, grad, LossTarget(givenLabel, cleanPred) as nat, epsilon, clampMin, clampMax);
          match Argmax(logits(adv))
          case None => Err(EmptyLogits)
          case Some(advPred) => Ok(AttackResult(adv, cleanPred, advPred, advPred != cleanPred))
  }

  /** The classifier the attack is bound to. Its forward pass and its input
      gradient are fixed functions; `training` is the mode flag that `eval()`
      switches off. The attack accepts a classifier in either mode. */
  class Classifier {
    var training: bool
    const forward: Logits
    const inputGrad: InputGradient

    constructor (forward: Logits, inputGrad: InputGradient, training: bool)
      ensures this.training == training && this.forward == forward && this.inputGrad == inputGrad
    {
      this.forward := forward;
      this.inputGrad := inputGrad;
      this.training := training;
    }

    method Eval()
      modifies this
      ensures !training
    {
      training := false;
    }
  }

  /** An FGSM attacker: the classifier, epsilon and the clamp bounds, set once. */
  class Attack {
    const model: Classifier
    const epsilon: real
    const clampMin: Bound
    const clampMax: Bound

    /** Stores the configuration and puts the classifier into evaluation mode. */
    constructor (model: Classifier, epsilon: real := 0.1, clampMin: Bound := Scalar(0.0), clampMax: Bound := Scalar(1.0))
      modifies model
      ensures this.model == model && this.epsilon == epsilon
      ensures this.clampMin == clampMin && this.clampMax == clampMax
      ensures !model.training
    {
      this.model := model;
      this.epsilon := epsilon;
      this.clampMin := clampMin;
      this.clampMax := clampMax;
      new;
      model.Eval();
    }

    /** The predicted class of a logit vector: the first index of a maximal
        logit; none for an empty vector. */
    function PredictLabel(logits: seq<real>): (pred: Option<nat>)
      ensures pred.None? <==> |logits| == 0
      ensures pred.Some? ==> IsFirstMax(logits, pred.value)
    {
      Argmax(logits)
    }

    /** The perturbation and clamp of one attack: every element of `image`
        moved by epsilon along the sign of its loss gradient for `target`, then
        clamped into the bounds of its channel. */
    method Perturb(image: Tensor, target: nat) returns (adv: Tensor)
      requires Covered(image, clampMin) && Covered(image, clampMax)
      ensures adv == AdvImage(image, model.inputGrad, target, epsilon, clampMin, clampMax)
    {
      ghost var spec := AdvImage(image, model.inputGrad, target, epsilon, clampMin, clampMax);
      var advPixels: seq<Pixel> := [];
      var i := 0;
      while i < |image.pixels|
        invariant 0 <= i <= |image.pixels|
        invariant advPixels == spec.pixels[..i]
      {
        var p := image.pixels[i];
        var gradSign := Sign(model.inputGrad(image, target, i));
        var stepped := p.value + epsilon * gradSign;
        advPixels := advPixels + [Pixel(p.channel, Clamp(stepped, BoundAt(clampMin, p.channel), BoundAt(clampMax, p.channel)))];
        i := i + 1;
      }
      adv := Tensor(image.shape, advPixels);
    }

    /** One FGSM attack on `image`, optionally against a ground-truth givenLabel.
        The image is a value: the caller's image is never changed. */
    method Run(image: Tensor, givenLabel: Option<int> := None) returns (r: RunResult)
      requires WellTagged(image)
      ensures r == RunSpec(model.forward, model.inputGrad, epsilon, clampMin, clampMax, image, givenLabel)
      ensures r == Err(ShapeError) <==> !ValidShape(image)
      ensures r.Ok? ==> (r.result.success <==> r.result.advPred != r.result.cleanPred)
    {
      if !ValidShape(image) {
        return Err(ShapeError);
      }
      var logits := model.forward(image);
      var cleanPred := PredictLabel(logits);
      if cleanPred.None? {
        return Err(EmptyLogits);
      }
      var target: nat;
      match givenLabel {
        case None =>
          target := cleanPred.value;
        case Some(l) =>
          if !(0 <= l < |logits|) {
            return Err(TargetOutOfRange);
          }
          target := l;
      }
      if !SameKind(clampMin, clampMax) || !Fits(clampMin, image.shape[1]) || !Fits(clampMax, image.shape[1]) {
        return Err(BoundsMismatch);
      }
      FitsCovered(image, clampMin);
      FitsCovered(image, clampMax);
      var adv := Perturb(image, target);
      var advPred := PredictLabel(model.forward(adv));
      if advPred.None? {
        return Err(EmptyLogits);
      }
      r := Ok(AttackResult(adv, cleanPred.value, advPred.value, advPred.value != cleanPred.value));
    }
  }

  /** Before the clamp, an element moves by at most |epsilon|, by exactly
      |epsilon| where the gradient is nonzero, and (for epsilon >= 0) in the
      direction of the gradient. */
  lemma StepWithinEpsilon(x: real, epsilon: real, g: real)
    ensures Abs(Step(x, epsilon, g) - x) <= Abs(epsilon)
    ensures g != 0.0 ==> Abs(Step(x, epsilon, g) - x) == Abs(epsilon)
    ensures epsilon >= 0.0 ==> (Step(x, epsilon, g) - x) * g >= 0.0
  {
  }

  /** With epsilon 0, or where the gradient is exactly 0, an adversarial
      element is the clamped clean element. */
  lemma NoStepElement(x: real, epsilon: real, g: real, lo: real, hi: real)
    requires epsilon == 0.0 || g == 0.0
    ensures AdvElement(x, epsilon, g, lo, hi) == Clamp(x, lo, hi)
  {
  }

  /** When epsilon spans the whole bound range, an in-bounds element with a
      nonzero gradient lands exactly on the bound its gradient points to. */
  lemma SaturatedElement(x: real, epsilon: real, g: real, lo: real, hi: real)
    requires lo <= x <= hi && epsilon >= hi - lo && g != 0.0
    ensures AdvElement(x, epsilon, g, lo, hi) == (if g > 0.0 then hi else lo)
  {
  }

  /** A larger non-negative epsilon never gives an element a smaller
      perturbation, neither before nor after the clamp. */
  lemma PerturbationMonotone(x: real, e1: real, e2: real, g: real, lo: real, hi: real)
    requires 0.0 <= e1 <= e2 && lo <= x <= hi
    ensures Abs(Step(x, e1, g) - x) <= Abs(Step(x, e2, g) - x)
    ensures Abs(AdvElement(x, e1, g, lo, hi) - x) <= Abs(AdvElement(x, e2, g, lo, hi) - x)
  {
  }

  /** Without a step (epsilon 0, or a gradient that vanishes everywhere) the
      adversarial image is the clamped clean image. */
  lemma NoStepImage(image: Tensor, grad: InputGradient, target: nat, epsilon: real, lo: Bound, hi: Bound)
    requires Covered(image, lo) && Covered(image, hi)
    requires epsilon == 0.0 || forall i :: 0 <= i < |image.pixels| ==> grad(image, target, i) == 0.0
    ensures AdvImage(image, grad, target, epsilon, lo, hi) == ClampImage(image, lo, hi)
  {
    var adv, clamped := AdvImage(image, grad, target, epsilon, lo, hi), ClampImage(image, lo, hi);
    forall i | 0 <= i < |image.pixels|
      ensures adv.pixels[i] == clamped.pixels[i]
    {
      var p := image.pixels[i];
      NoStepElement(p.value, epsilon, grad(image, target, i), BoundAt(lo, p.channel), BoundAt(hi, p.channel));
    }
    assert adv.pixels == clamped.pixels;
  }

  /** Clamping an image that is already inside the bounds changes nothing. */
  lemma ClampImageInBounds(image: Tensor, lo: Bound, hi: Bound)
    requires InBounds(image, lo, hi)
    ensures Covered(image, lo) && Covered(image, hi)
    ensures ClampImage(image, lo, hi) == image
  {
  }

  /** A number bound paired with a tensor bound of one or more dimensions is
      rejected once the clean pass and the label check have gone through,
      whatever the values. */
  lemma MixedBoundsRejected(logits: Logits, grad: InputGradient, epsilon: real, image: Tensor,
                            givenLabel: Option<int>, v: real, vs: seq<real>)
    requires WellTagged(image) && CleanOk(logits, image) && LabelOk(logits, image, givenLabel)
    ensures RunSpec(logits, grad, epsilon, Scalar(v), PerChannel(vs), image, givenLabel) == Err(BoundsMismatch)
    ensures RunSpec(logits, grad, epsilon, PerChannel(vs), Scalar(v), image, givenLabel) == Err(BoundsMismatch)
  {
  }

  /** A 0-dim tensor bound pairs with a bound of either kind: next to any
      bound that broadcasts over the channels, the bounds are never the
      reason an attack fails. */
  lemma ZeroDimBoundAccepted(logits: Logits, grad: InputGradient, epsilon: real, image: Tensor,
                             givenLabel: Option<int>, d: real, other: Bound)
    requires WellTagged(image) && ValidShape(image) && Fits(other, image.shape[1])
    ensures RunSpec(logits, grad, epsilon, ZeroDim(d), other, image, givenLabel) != Err(BoundsMismatch)
    ensures RunSpec(logits, grad, epsilon, other, ZeroDim(d), image, givenLabel) != Err(BoundsMismatch)
  {
  }

  /** An attack without a step (epsilon 0, or an input gradient that is zero
      at the loss target) raises no error of its own: given the checks that
      do not depend on the step (shape, clean logits, label, bounds, and
      logits for the clamped clean image), it succeeds and returns the
      clamped clean image. On an image already inside the bounds it returns
      that very image, predicts the clean class again and is not a success. */
  lemma NoStepRun(logits: Logits, grad: InputGradient, epsilon: real, clampMin: Bound, clampMax: Bound,
                  image: Tensor, givenLabel: Option<int>)
    requires WellTagged(image) && CleanOk(logits, image) && LabelOk(logits, image, givenLabel)
    requires BoundsFit(image, clampMin, clampMax)
    requires var target := LossTarget(givenLabel, CleanPred(logits, image)) as nat;
      epsilon == 0.0 || forall i :: 0 <= i < |image.pixels| ==> grad(image, target, i) == 0.0
    requires |logits(ClampImage(image, clampMin, clampMax))| > 0
    ensures RunSpec(logits, grad, epsilon, clampMin, clampMax, image, givenLabel).Ok?
    ensures var res := RunSpec(logits, grad, epsilon, clampMin, clampMax, image, givenLabel).result;
      res.adversarialImage == ClampImage(image, clampMin, clampMax)
    ensures var res := RunSpec(logits, grad, epsilon, clampMin, clampMax, image, givenLabel).result;
      InBounds(image, clampMin, clampMax) ==>
        res.adversarialImage == image && res.advPred == res.cleanPred && !res.success
  {
    NoStepImage(image, grad, LossTarget(givenLabel, CleanPred(logits, image)) as nat, epsilon, clampMin, clampMax);
    var res := RunSpec(logits, grad, epsilon, clampMin, clampMax, image, givenLabel).result;
    if InBounds(image, clampMin, clampMax) {
      ClampImageInBounds(image, clampMin, clampMax);
      assert Argmax(logits(res.adversarialImage)) == Argmax(logits(image));
    }
  }

  /** The L-infinity bound: on an image inside the bounds, no adversarial
      element is more than |epsilon| away from the clean one. */
  lemma RunWithinEpsilon(logits: Logits, grad: InputGradient, epsilon: real, clampMin: Bound, clampMax: Bound,
                         image: Tensor, givenLabel: Option<int>)
    requires WellTagged(image) && InBounds(image, clampMin, clampMax)
    requires RunSpec(logits, grad, epsilon, clampMin, clampMax, image, givenLabel).Ok?
    ensures var adv := RunSpec(logits, grad, epsilon, clampMin, clampMax, image, givenLabel).result.adversarialImage;
      forall i :: 0 <= i < |image.pixels| ==> Abs(adv.pixels[i].value - image.pixels[i].value) <= Abs(epsilon)
  {
    var res := RunSpec(logits, grad, epsilon, clampMin, clampMax, image, givenLabel).result;
    var adv := res.adversarialImage;
    forall i | 0 <= i < |image.pixels|
      ensures Abs(adv.pixels[i].value - image.pixels[i].value) <= Abs(epsilon)
    {
      var p := image.pixels[i];
      assert adv.pixels[i].value
        == AdvElement(p.value, epsilon, grad(image, LossTarget(givenLabel, res.cleanPred) as nat, i),
                      BoundAt(clampMin, p.channel), BoundAt(clampMax, p.channel));
    }
  }

  /** Saturation: when epsilon spans the whole bound range of channel c and
      the gradient at the loss target is nonzero on that channel, every element of an in-bounds
      image's channel c ends exactly on min_c or max_c. */
  lemma RunSaturatesChannel(logits: Logits, grad: InputGradient, epsilon: real, clampMin: Bound, clampMax: Bound,
                            image: Tensor, givenLabel: Option<int>, c: nat)
    requires WellTagged(image) && InBounds(image, clampMin, clampMax)
    requires RunSpec(logits, grad, epsilon, clampMin, clampMax, image, givenLabel).Ok?
    requires Covers(clampMin, c) && Covers(clampMax, c)
    requires epsilon >= BoundAt(clampMax, c) - BoundAt(clampMin, c)
    requires var target := LossTarget(givenLabel, CleanPred(logits, image)) as nat;
      forall i :: 0 <= i < |image.pixels| && image.pixels[i].channel == c ==> grad(image, target, i) != 0.0
    ensures var adv := RunSpec(logits, grad, epsilon, clampMin, clampMax, image, givenLabel).result.adversarialImage;
      forall i :: 0 <= i < |adv.pixels| && adv.pixels[i].channel == c ==>
        adv.pixels[i].value == BoundAt(clampMin, c) || adv.pixels[i].value == BoundAt(clampMax, c)
  {
  }
}
