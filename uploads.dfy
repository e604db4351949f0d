/** The best-effort image upload loop shared by the café and rating flows:
    each image is uploaded in turn, a failed upload is logged and skipped, and
    the download URLs of the successful ones are collected. The blob store is
    an oracle: `outcomes[i]` is what uploading image `i` produced. */
module Uploads {
  import opened Wrappers
  import opened Documents

  /** The URLs of the successful uploads, in input order. */
  function Successes(outcomes: seq<Option<Url>>): (urls: seq<Url>)
    ensures |urls| == SuccessCount(outcomes) <= |outcomes|
  {
    if outcomes == [] then []
    else
      var last := outcomes[|outcomes| - 1];
      Successes(outcomes[..|outcomes| - 1]) + (if last.Some? then [last.value] else [])
  }

  /** How many uploads succeeded. */
  function SuccessCount(outcomes: seq<Option<Url>>): (n: nat)
    ensures n <= |outcomes|
  {
    if outcomes == [] then 0
    else SuccessCount(outcomes[..|outcomes| - 1]) + (if outcomes[|outcomes| - 1].Some? then 1 else 0)
  }

  /** The successful upload of image `i` lands right after the successes that
      precede it, so the output keeps the input order and drops nothing else. */
  lemma {:induction false} SuccessPosition(outcomes: seq<Option<Url>>, i: nat)
    requires i < |outcomes| && outcomes[i].Some?
    ensures SuccessCount(outcomes[..i]) < |Successes(outcomes)|
    ensures Successes(outcomes)[SuccessCount(outcomes[..i])] == outcomes[i].value
    decreases |outcomes|
  {
    var n := |outcomes| - 1;
    var init := outcomes[..n];
    if i < n {
      assert init[..i] == outcomes[..i];
      SuccessPosition(init, i);
    } else {
      assert init == outcomes[..i];
    }
  }

  /** Counting successes is monotone in the prefix taken. */
  lemma {:induction false} SuccessCountMonotone(outcomes: seq<Option<Url>>, i: nat, j: nat)
    requires i <= j <= |outcomes|
    ensures SuccessCount(outcomes[..i]) <= SuccessCount(outcomes[..j])
    ensures i < j && outcomes[i].Some? ==> SuccessCount(outcomes[..i]) < SuccessCount(outcomes[..j])
    decreases j
  {
    if i < j {
      SuccessCountMonotone(outcomes, i, j - 1);
      assert outcomes[..j][..j - 1] == outcomes[..j - 1];
      if i == j - 1 {
        assert outcomes[..j][j - 1] == outcomes[i];
      }
    }
  }

  /** Two successful uploads appear in the output in the order of their images. */
  lemma OrderPreserved(outcomes: seq<Option<Url>>, i: nat, j: nat)
    requires i < j < |outcomes| && outcomes[i].Some? && outcomes[j].Some?
    ensures SuccessCount(outcomes[..i]) < SuccessCount(outcomes[..j]) < |Successes(outcomes)|
    ensures Successes(outcomes)[SuccessCount(outcomes[..i])] == outcomes[i].value
    ensures Successes(outcomes)[SuccessCount(outcomes[..j])] == outcomes[j].value
  {
    SuccessCountMonotone(outcomes, i, j);
    SuccessPosition(outcomes, i);
    SuccessPosition(outcomes, j);
  }

  /** A failed upload is skipped rather than aborting the loop: if every image
      failed the result is empty, and if none failed every URL is kept. */
  lemma {:induction false} AllOrNothing(outcomes: seq<Option<Url>>)
    ensures (forall i :: 0 <= i < |outcomes| ==> outcomes[i].None?) ==> Successes(outcomes) == []
    ensures (forall i :: 0 <= i < |outcomes| ==> outcomes[i].Some?) ==> |Successes(outcomes)| == |outcomes|
    decreases |outcomes|
  {
    if outcomes != [] {
      AllOrNothing(outcomes[..|outcomes| - 1]);
    }
  }

  /** `uploadRatingImages` / `uploadCafeImages`: the for-loop with its
      per-image try/catch. */
  method UploadImages(outcomes: seq<Option<Url>>) returns (urls: seq<Url>)
    ensures urls == Successes(outcomes)
  {
    urls := [];
    var i := 0;
    while i < |outcomes|
      invariant 0 <= i <= |outcomes|
      invariant urls == Successes(outcomes[..i])
    {
      assert outcomes[..i + 1][..i] == outcomes[..i];
      match outcomes[i] {
        case Some(url) => urls := urls + [url];
        case None =>
      }
      i := i + 1;
    }
    assert outcomes[..i] == outcomes;
  }
}
