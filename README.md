# FGSM attack core, modelled in Dafny

This project models the core of a small Fast Gradient Sign Method (FGSM) demo. FGSM is a one-step adversarial attack on an image classifier. It has two parts:

- **the attack step** (`backend/fgsm.py`). An `Attack` object holds a classifier, a budget `epsilon` and clamp bounds. Its `run` method does the following in order:
  1. rejects any image whose shape is not (1, C, H, W);
  2. takes the top-1 class of the clean logits;
  3. picks the loss target: the supplied label, or else the clean prediction;
  4. moves every element to `x + epsilon * sign(grad)`;
  5. clamps each element into the bounds of its channel;
  6. classifies the result again;
  7. reports success when the two predictions differ.
- **the normalisation arithmetic** (`backend/model_utils.py`): the ImageNet per-channel mean and standard deviation; the normalised-space bounds `min_c = (0 - mean_c)/std_c` and `max_c = (1 - mean_c)/std_c`; the display inverse `x * std + mean` clamped to [0, 1]; and the top-1 label of a logit vector.

Everything is over exact `real` arithmetic. An image is a `Tensor`: a shape plus a sequence of elements, each tagged with its channel. The classifier is the class `Fgsm.Classifier`, which holds two fixed functions:

- `forward`: image to logits;
- `inputGrad`: (image, loss target, element index) to the gradient of the loss at that element.

The attack calls them but does not look inside. One attack's outcome is the record `Fgsm.AttackResult` (adversarial image, clean prediction, adversarial prediction, success flag), or one of four errors of `Fgsm.AttackError`.

Modules, one per source component:

- `TensorOps` (tensor_ops.dfy): the tensor library's primitives the core uses. These are `sign`, `clamp` (with its rule that crossed bounds give the upper bound) and `argmax` (first index of the maximum; an empty vector is an error).
- `ModelUtils` (model_utils.dfy): `backend/model_utils.py`.
- `Fgsm` (fgsm.dfy): `backend/fgsm.py`. Besides the class, it has `RunSpec`, which describes one whole attack as a function. `Attack.Run` performs the checks in order and calls `Attack.Perturb`, the loop over the elements; `Run` is proved equal to `RunSpec`. The lemmas are about `RunSpec`.
- `ImagenetAttack` (imagenet_attack.dfy): the two parts composed the way `backend/app_fgsm.py` composes them. The ImageNet bounds are the clamp bounds, and the adversarial image is passed through the display inverse.

Behaviour of the code that the model keeps:

- `epsilon` is not checked to be non-negative. The L-infinity bound is therefore stated with `|epsilon|`.
- The bounds are not checked to be ordered. `torch.clamp` then returns the upper bound, and `TensorOps.Clamp` models that.
- With epsilon 0, an attack on an image already inside the bounds is never a success (`Fgsm.NoStepRun`). On an image outside the bounds the clamp can change the image and hence the prediction.

## Model

| member | source | states |
|---|---|---|
| TensorOps.Sign | backend/fgsm.py:49 | the gradient sign is -1, 0 or 1; it is 0 exactly at 0; and sign(x) * x = abs(x) |
| TensorOps.Clamp | backend/fgsm.py:51 | with ordered bounds the result lies in [lo, hi]; a value already inside is unchanged; below lo gives lo; above hi gives hi; crossed bounds give hi |
| TensorOps.ClampMonotone | backend/fgsm.py:51 | clamping preserves order |
| TensorOps.Argmax | backend/fgsm.py:29 | nothing is returned exactly for an empty logit vector; otherwise the result is the first index of a maximal logit |
| TensorOps.FirstMaxUnique | backend/model_utils.py:59 | at most one index is the first maximal one, so any two first-index argmax rules agree (`predict_label` and `top1_label_from_logits` give the same class) |
| ModelUtils.ImagenetNormStats | backend/model_utils.py:62-66 | three means in (0, 1) and three positive standard deviations, identical to the constants the display inverse writes out |
| ModelUtils.NormalizeMonotone | backend/model_utils.py:75-76 | normalising with a positive std preserves order, and strict order too |
| ModelUtils.NormalizedBoundsForImagenet | backend/model_utils.py:69-77 | per channel, min_c is where raw 0 normalises to, max_c is where raw 1 normalises to, and min_c < max_c |
| ModelUtils.NormalizeInBounds | backend/model_utils.py:72-76 | every raw value in [0, 1] normalises into [min_c, max_c] |
| ModelUtils.DenormalizeValue | backend/model_utils.py:54-55 | the display inverse of one element always lies in [0, 1] |
| ModelUtils.DenormalizeToDisplay | backend/model_utils.py:49-55 | same shape and channels as the input, and every value in [0, 1] for any input |
| ModelUtils.DenormalizeUnclipped | backend/model_utils.py:52-55 | a value in [min_c, max_c] is not clipped: it comes back as exactly v * std_c + mean_c with the statistics' constants, and that lies in [0, 1] |
| ModelUtils.DenormalizeNormalize | backend/model_utils.py:52-55 | for raw r in [0, 1], denormalising the normalised r gives back r exactly |
| ModelUtils.NormalizeDenormalize | backend/model_utils.py:52-55 | for v in [min_c, max_c], normalising the denormalised v gives back v exactly |
| ModelUtils.DisplayRoundTrip | backend/model_utils.py:49-55 | a raw image with values in [0, 1], normalised and then denormalised, is the same image |
| ModelUtils.Top1LabelFromLogits | backend/model_utils.py:58-59 | nothing exactly for an empty vector; otherwise the first index of a maximal logit |
| Fgsm.BoundAt | backend/fgsm.py:51 | the broadcast bound value of a channel: a number or a 0-dim tensor itself, the single value of a (1, 1, 1, 1) bound, or the channel's own entry of a C-element bound |
| Fgsm.FitsCovered | backend/fgsm.py:51 | a bound that broadcasts over the C channels of a well-tagged (1, C, H, W) image has a value for every one of its elements |
| Fgsm.Step | backend/fgsm.py:50 | the unclamped step is x + epsilon for a positive gradient, x - epsilon for a negative one, and x where the gradient is 0 |
| Fgsm.ClampImage | backend/fgsm.py:51 | clamping keeps shape and channels, and puts every element inside ordered bounds |
| Fgsm.LossTarget | backend/fgsm.py:40-43 | the loss target is the supplied label when there is one, and the clean prediction otherwise |
| Fgsm.CleanPred | backend/fgsm.py:37-38 | the clean prediction is the first index of a maximal clean logit |
| Fgsm.AdvFor | backend/fgsm.py:40-51 | an abbreviation RunSpec's contract uses for the adversarial image; its contract says both bounds cover every element |
| Fgsm.AdvElement | backend/fgsm.py:49-51 | an adversarial element lies in [lo, hi] when lo <= hi, and is at most abs(epsilon) from an in-bounds clean element |
| Fgsm.AdvImage | backend/fgsm.py:49-51 | the adversarial image has the input's shape and channels, and lies within the bounds when the bounds are ordered for every element (the per-element fact is `AdvElement`'s) |
| Fgsm.RunSpec | backend/fgsm.py:31-59 | each outcome exactly characterised: ShapeError exactly when the rank is not 4 or the batch is not 1; EmptyLogits exactly when the clean logits, or (after the label and bound checks) the adversarial logits, are empty; TargetOutOfRange exactly when a supplied label is outside the classes; BoundsMismatch exactly when a bound does not broadcast over the channels or a number bound is paired with a tensor bound of one or more dimensions (a 0-dim tensor pairs with either); Ok exactly when all these checks pass. On success: clean_pred is the top-1 of the clean logits; a supplied label is a valid class; the image is the FGSM image for the loss target (the label, or else clean_pred); adv_pred is the top-1 of the adversarial logits; success holds exactly when adv_pred != clean_pred; the shape is kept; ordered bounds are respected |
| Fgsm.Classifier.constructor | backend/fgsm.py:20 | the classifier handed to the attack holds its forward and input-gradient functions and whichever mode flag it was given, since the attack accepts a module in either mode |
| Fgsm.Classifier.Eval | backend/fgsm.py:25 | afterwards the classifier is in evaluation mode |
| Fgsm.Attack.constructor | backend/fgsm.py:20-25 | stores the classifier, epsilon and both clamp bounds (defaults 0.1, 0.0 and 1.0), and puts the classifier into evaluation mode |
| Fgsm.Attack.PredictLabel | backend/fgsm.py:27-29 | nothing exactly for an empty vector; otherwise the first index of a maximal logit |
| Fgsm.Attack.Perturb | backend/fgsm.py:49-51 | the element loop builds exactly the FGSM image: each element stepped by epsilon * sign(grad) and clamped into its channel's bounds |
| Fgsm.Attack.Run | backend/fgsm.py:31-59 | the result is RunSpec of the configured classifier, epsilon and bounds. It is ShapeError exactly on a wrongly shaped image, and success means adv_pred != clean_pred |
| Fgsm.StepWithinEpsilon | backend/fgsm.py:49-50 | before the clamp an element moves by at most abs(epsilon), by exactly abs(epsilon) where the gradient is nonzero, and along the gradient when epsilon >= 0 |
| Fgsm.NoStepElement | backend/fgsm.py:49-51 | with epsilon 0, or where the gradient is exactly 0, the adversarial element is the clamped clean element |
| Fgsm.SaturatedElement | backend/fgsm.py:50-51 | with epsilon >= hi - lo, an in-bounds element with a nonzero gradient lands exactly on hi (positive gradient) or lo (negative gradient) |
| Fgsm.PerturbationMonotone | backend/fgsm.py:49-51 | for 0 <= e1 <= e2, the perturbation at e1 is no larger than at e2, both before and after the clamp |
| Fgsm.NoStepImage | backend/fgsm.py:49-51 | with epsilon 0, or a gradient that is 0 everywhere, the adversarial image is the clamped clean image |
| Fgsm.ClampImageInBounds | backend/fgsm.py:51 | clamping an image already inside the bounds returns it unchanged |
| Fgsm.MixedBoundsRejected | backend/fgsm.py:51 | a number bound paired with a tensor bound of one or more dimensions (such as the default lower bound 0.0 with a (1, C, 1, 1) upper bound) gives BoundsMismatch, whatever the values |
| Fgsm.ZeroDimBoundAccepted | backend/fgsm.py:51 | a 0-dim tensor bound next to a number or a tensor that broadcasts is never the cause of BoundsMismatch |
| Fgsm.NoStepRun | backend/fgsm.py:31-59 | an attack with epsilon 0, or with a zero input gradient at the loss target, raises no error once shape, clean logits, label, bounds and the logits of the clamped image are valid, and returns the clamped clean image. On an in-bounds image it returns the image itself, adv_pred = clean_pred, and success is false |
| Fgsm.RunWithinEpsilon | backend/fgsm.py:49-51 | L-infinity bound: on an in-bounds image every adversarial element is within abs(epsilon) of the clean one |
| Fgsm.RunSaturatesChannel | backend/fgsm.py:50-51 | when epsilon >= max_c - min_c and the gradient at the loss target is nonzero on channel c, every element of that channel of an in-bounds image ends exactly at min_c or max_c |
| ImagenetAttack.ImagenetClampBounds | backend/app_fgsm.py:65-66 | the clamp bounds cover the three ImageNet channels, with min_c and max_c as computed by the bounds helper |
| ImagenetAttack.ImagenetRunIsRgb | backend/app_fgsm.py:65-67 | a successful attack with the ImageNet bounds ran on an image with exactly three channels, and its bounds are ordered |
| ImagenetAttack.NormalizedImageInBounds | backend/model_utils.py:72-76 | a raw image in [0, 1], once normalised, lies inside the ImageNet clamp bounds |
| ImagenetAttack.AdversarialDisplaysUnclipped | backend/app_fgsm.py:65-70 | the adversarial image of such an attack is displayed without clipping: each element comes back as v * std_c + mean_c |
| ImagenetAttack.ZeroEpsilonDisplaysOriginal | backend/app_fgsm.py:63-70 | an epsilon-0 attack on a normalised (1, 3, H, W) raw image in [0, 1], with non-empty clean logits and a valid label if one is given, raises no error, displays exactly the raw image and is not a success |

## Left out

- Automatic differentiation: `nn.CrossEntropyLoss`, `loss.backward` and ResNet-18 are not modelled. They are the opaque `forward` and `inputGrad` functions of `Fgsm.Classifier`. Only the loss's rejection of a target outside [0, K) is modelled (`TargetOutOfRange`).
- The classifier's parameter-gradient buffers are not modelled: `zero_grad(set_to_none=True)` and the gradients that `backward` leaves on the parameters. Nothing in the attack's result depends on them.
- The effect of the mode flag on the network's output is not modelled. `Eval` records the mode; `forward` is one fixed function either way.
- The label is modelled as one class index. Soft-label (probability) targets and label tensors of the wrong shape, which the loss at backend/fgsm.py:45 accepts or rejects, are not modelled.
- The loss's `ignore_index` (-100) is not modelled. The model rejects that label as out of range, where the library would produce a NaN loss.
- Shape errors raised by the classifier itself, such as a wrong channel count or spatial size, are not modelled. `forward` is total.
- Fgsm.Attack.Run: does not state that the classifier is not called before the shape check. The classifier is a pure function here, so when it is called cannot be observed. The shape check is simply the first branch of `RunSpec`.
- Only these bound forms are modelled: a plain number, a 0-dim tensor, or a tensor of shape (1, 1, 1, 1) or (1, C, 1, 1). `torch.clamp` takes two numbers or two tensors, and a 0-dim tensor passes as a number; a number with a tensor of one or more dimensions gives `BoundsMismatch`. A 0-dim tensor that requires grad, which the library would not take as a number, is not distinguished. Any other channel count gives `BoundsMismatch`. This includes a one-channel image against three-channel bounds, which the library would expand to three channels.
- Tensor storage is not tied to the shape. Each element carries its channel, and `WellTagged` says the channel is below C for a rank-4 tensor. The element count is not tied to N * C * H * W.
- ModelUtils.DenormalizeToDisplay: requires every channel tag to be one of the three ImageNet channels, as the helper's documented (1, 3, H, W) input. It returns a value for any such tagging, including tensors the helper's broadcast against the (1, 3, 1, 1) statistics rejects or reshapes (a (1, 2, H, W) tensor, a tensor of another rank). Broadcasting a one-channel image to three channels is not modelled.
- Float32 rounding, NaN and infinities are not modelled. Real arithmetic makes the round trips exact rather than within tolerance.
- The `device` argument of the statistics and bounds helpers is dropped, along with device and dtype placement generally.
- These model-loading and preprocessing wrappers are left out, because they wrap torchvision weights, transforms and CUDA detection, which this model does not describe: `get_device`, `load_pretrained_model`, `imagenet_preprocess`, `imagenet_categories` and `pil_to_tensor_for_model`. The Normalize stage of the preprocessing appears only as `ModelUtils.ToNormalized`, the reference forward map for the round trip.
- The HTTP service (`backend/app_fgsm.py`: content-type checks, image decoding, base64/PNG encoding, category lookup) is left out as I/O. So are the CSV evaluation harness (`backend/eval_fgsm.py`) and the frontend.
- Determinism of repeated attacks is not stated as a lemma: `RunSpec` is a function, so equal inputs give equal results by construction.
