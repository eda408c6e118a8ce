/** The tensor primitives that the attack and the bounds provider rely on:
    image tensors as sequences of channel-tagged elements, and the
    elementwise `sign`, `clamp` and the first-index `argmax` of the tensor
    library, over exact real arithmetic. */
module TensorOps {

  datatype Option<+T> = None | Some(value: T)

  /** One element of an image tensor, tagged with the channel it belongs to. */
  datatype Pixel = Pixel(channel: nat, value: real)

  /** A tensor: its shape, and its elements in storage order. */
  datatype Tensor = Tensor(shape: seq<nat>, pixels: seq<Pixel>)

  /** A rank-4 tensor of shape (N, C, H, W) tags each element with a channel below C. */
  predicate WellTagged(t: Tensor) {
    |t.shape| == 4 ==> forall i :: 0 <= i < |t.pixels| ==> t.pixels[i].channel < t.shape[1]
  }

  function Abs(x: real): real {
    if x < 0.0 then -x else x
  }

  /** `torch.sign`: -1, 0 or 1; zero exactly at zero. */
  function Sign(x: real): (s: real)
    ensures s == -1.0 || s == 0.0 || s == 1.0
    ensures s * x == Abs(x)
    ensures s == 0.0 <==> x == 0.0
  {
    if x > 0.0 then 1.0 else if x < 0.0 then -1.0 else 0.0
  }

  /** `torch.clamp(x, lo, hi)`, which is `min(max(x, lo), hi)`: when the bounds
      are crossed (`lo > hi`) every value becomes `hi`. */
  function Clamp(x: real, lo: real, hi: real): (r: real)
    ensures lo <= hi ==> lo <= r <= hi
    ensures lo <= x <= hi ==> r == x
    ensures lo <= hi && x < lo ==> r == lo
    ensures hi < x ==> r == hi
    ensures hi < lo ==> r == hi
  {
    var raised := if x < lo then lo else x;
    if raised > hi then hi else raised
  }

  /** Clamping does not reverse order. */
  lemma ClampMonotone(x: real, y: real, lo: real, hi: real)
    requires x <= y
    ensures Clamp(x, lo, hi) <= Clamp(y, lo, hi)
  {
  }

  /** i is the first index of s that holds a maximal element. */
  predicate IsFirstMax(s: seq<real>, i: nat) {
    i < |s|
    && (forall k :: 0 <= k < |s| ==> s[k] <= s[i])
    && (forall k :: 0 <= k < i ==> s[k] < s[i])
  }

  /** At most one index is the first maximal one, so any two argmax rules
      that both pick it agree. */
  lemma FirstMaxUnique(s: seq<real>, i: nat, j: nat)
    requires IsFirstMax(s, i) && IsFirstMax(s, j)
    ensures i == j
  {
    assert s[i] == s[j];
  }

  /** `torch.argmax` over a vector of logits: the first index holding the
      maximum; an empty vector has no argmax (the library raises an error). */
  function Argmax(s: seq<real>): (r: Option<nat>)
    ensures r.None? <==> |s| == 0
    ensures r.Some? ==> IsFirstMax(s, r.value)
  {
    if |s| == 0 then None else Some(ArgmaxFrom(s, 0, 1))
  }

  /** Scans s from index i on, given that `best` is the first maximal index of s[..i]. */
  function ArgmaxFrom(s: seq<real>, best: nat, i: nat): (r: nat)
    requires best < i <= |s|
    requires forall k :: 0 <= k < i ==> s[k] <= s[best]
    requires forall k :: 0 <= k < best ==> s[k] < s[best]
    ensures IsFirstMax(s, r)
    decreases |s| - i
  {
    if i == |s| then best
    else if s[best] < s[i] then ArgmaxFrom(s, i, i + 1)
    else ArgmaxFrom(s, best, i + 1)
  }
}
