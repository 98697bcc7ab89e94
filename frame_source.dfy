/**
 * The frames a capture delivers, abstracted: `ok[n]` says whether frame `n`
 * can be grabbed and decoded, and reading stops at the first frame that
 * cannot (or at the end of `ok`).
 */
module FrameSource {

  /** The number of frames read before the first failure. */
  function FirstFail(ok: seq<bool>): (n: nat)
    ensures n <= |ok|
    ensures forall k :: 0 <= k < n ==> ok[k]
    ensures n < |ok| ==> !ok[n]
  {
    if |ok| == 0 || !ok[0] then 0 else 1 + FirstFail(ok[1..])
  }

  /** The frames below `n` whose number is a multiple of `skip`, in order. */
  function SampledBelow(n: nat, skip: int): (s: seq<nat>)
    requires skip != 0
    ensures forall k :: 0 <= k < |s| ==> s[k] < n
  {
    if n == 0 then []
    else SampledBelow(n - 1, skip) + (if (n - 1) % skip == 0 then [n - 1] else [])
  }

  /**
   * The sampled frames are multiples of `skip` below `n`, strictly
   * increasing, and every such multiple is among them.
   */
  lemma {:induction false} SampledBelowSpec(n: nat, skip: int)
    requires skip != 0
    ensures forall k :: 0 <= k < |SampledBelow(n, skip)| ==>
      SampledBelow(n, skip)[k] < n && SampledBelow(n, skip)[k] % skip == 0
    ensures forall i, j :: 0 <= i < j < |SampledBelow(n, skip)| ==> SampledBelow(n, skip)[i] < SampledBelow(n, skip)[j]
    ensures forall f :: 0 <= f < n && f % skip == 0 ==> f in SampledBelow(n, skip)
  {
    if n > 0 {
      SampledBelowSpec(n - 1, skip);
    }
  }

  /** With `skip` 1 every frame is sampled. */
  lemma {:induction false} SampleEveryFrame(n: nat)
    ensures SampledBelow(n, 1) == seq(n, k requires 0 <= k < n => k)
  {
    if n > 0 {
      SampleEveryFrame(n - 1);
    }
  }
}
